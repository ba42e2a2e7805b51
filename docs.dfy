/**
 * The request logic of `services/docsService.js`: where `createDocument`
 * and `appendToDocument` insert text, and the two batches of
 * `createPresentation` (the layout batch that replaces the default slide,
 * and the content batch that fills each slide's text boxes). The Docs and
 * Slides APIs are not modelled: the structure they answer (the body's end
 * indices, the slides' elements) is an input and each operation yields the
 * requests it would send.
 */
module Docs {
  import opened Wrappers
  import opened Json

  // ---- documents ----

  /** `{ insertText: { location: { index }, text } }`. */
  datatype Insert = Insert(index: int, text: string)

  /**
   * Where `createDocument` inserts: one before the last body element's end,
   * or 1 in a document whose body has no elements. `ends` holds the body
   * elements' `endIndex` values, empty when the body is missing.
   */
  function InsertIndex(ends: seq<int>): int {
    if |ends| > 0 then ends[|ends| - 1] - 1 else 1
  }

  /**
   * What `createDocument` inserts: the trimmed content, once, when it is
   * not blank; nothing for missing or blank content; `trim` of a truthy
   * non-string throws.
   */
  function DocumentInsert(content: Value, ends: seq<int>): Result<Option<Insert>> {
    if !Truthy(content) then Ok(None)
    else if !content.Str? then Err("content.trim is not a function")
    else if Trim(content.s) == [] then Ok(None)
    else Ok(Some(Insert(InsertIndex(ends), Trim(content.s))))
  }

  /** `p.trim() || p === ''`: blank lines that are not empty are dropped. */
  predicate KeptLine(p: string) {
    Trim(p) != [] || p == []
  }

  function KeptLines(parts: seq<string>): (r: seq<string>)
    ensures |r| <= |parts|
    ensures parts != [] && KeptLine(parts[0]) ==> r != [] && r[0] == parts[0]
    ensures forall i :: 0 <= i < |r| ==> KeptLine(r[i])
  {
    if parts == [] then []
    else
      var rest := KeptLines(parts[1..]);
      if KeptLine(parts[0]) then [parts[0]] + rest else rest
  }

  /** The first line of trimmed, non-blank content is itself not blank. */
  lemma FirstLineNotBlank(formatted: string)
    requires formatted != [] && !IsSpace(formatted[0])
    ensures var lines := KeptLines(SplitLines(formatted));
            lines != [] && Trim(lines[0]) != []
  {
    var parts := SplitLines(formatted);
    assert parts[0][0] == formatted[0];
    assert Trim(parts[0]) != [];
  }

  /**
   * `createDocument` after the document exists: the per-line loop builds
   * requests it only counts, and when it built any the whole trimmed
   * content is inserted in one request.
   */
  method CreateDocument(content: Value, ends: seq<int>) returns (r: Result<Option<Insert>>)
    ensures r == DocumentInsert(content, ends)
  {
    if !Truthy(content) {
      return Ok(None);
    }
    if !content.Str? {
      return Err("content.trim is not a function");
    }
    if Trim(content.s) == [] {
      return Ok(None);
    }
    var insertIndex := InsertIndex(ends);
    var formatted := Trim(content.s);
    var paragraphs := KeptLines(SplitLines(formatted));
    FirstLineNotBlank(formatted);
    var requests: seq<Insert> := [];
    var current := insertIndex;
    var i := 0;
    while i < |paragraphs|
      invariant 0 <= i <= |paragraphs|
      invariant i > 0 ==> |requests| > 0
    {
      var paragraph := paragraphs[i];
      if Trim(paragraph) != [] {
        requests := requests + [Insert(current, paragraph + (if i < |paragraphs| - 1 then "\n" else ""))];
        current := current + |paragraph| + 1;
      } else if i < |paragraphs| - 1 {
        requests := requests + [Insert(current, "\n")];
        current := current + 1;
      }
      i := i + 1;
    }
    if |requests| > 0 {
      r := Ok(Some(Insert(insertIndex, formatted)));
    } else {
      r := Ok(None);
    }
  }

  /**
   * `appendToDocument`: a newline and the content, one before the last body
   * element's end; a document with no body elements throws.
   */
  function AppendInsert(ends: seq<int>, content: Value): (r: Result<Insert>)
    ensures r.Ok? <==> ends != []
  {
    if ends == [] then Err("Cannot read properties of undefined (reading 'endIndex')")
    else Ok(Insert(ends[|ends| - 1] - 1, "\n" + Display(content)))
  }

  /**
   * Appending and creating agree on where the body ends: both insert at the
   * same index of a document with body elements, and the appended text
   * starts on a new line.
   */
  lemma AppendFollowsBody(ends: seq<int>, content: Value, created: Value)
    requires ends != [] && DocumentInsert(created, ends).Ok? && DocumentInsert(created, ends).value.Some?
    ensures AppendInsert(ends, content).value.index == DocumentInsert(created, ends).value.value.index
    ensures AppendInsert(ends, content).value.text[0] == '\n'
  {
  }

  /**
   * Created text is inserted exactly when the content trims to something,
   * then as the trimmed content, without surrounding spaces, one before the body's end (at 1 in an
   * empty body).
   */
  lemma CreatedTextTrimmed(content: Value, ends: seq<int>)
    requires content.Str?
    ensures DocumentInsert(content, ends).Ok?
    ensures DocumentInsert(content, ends).value.Some? <==> exists i :: 0 <= i < |content.s| && !IsSpace(content.s[i])
    ensures DocumentInsert(content, ends).value.Some? ==>
              var t := DocumentInsert(content, ends).value.value.text;
              t != [] && !IsSpace(t[0]) && !IsSpace(t[|t| - 1]) && t == Trim(content.s)
    ensures DocumentInsert(content, ends).value.Some? ==>
              DocumentInsert(content, ends).value.value.index == if ends == [] then 1 else ends[|ends| - 1] - 1
  {
    var t := Trim(content.s);
    if content.s == [] {
      assert DocumentInsert(content, ends) == Ok(None);
    } else {
      assert DocumentInsert(content, ends) == if t == [] then Ok(None) else Ok(Some(Insert(InsertIndex(ends), t)));
    }
  }

  // ---- slide layouts ----

  datatype Layout = Title | TitleAndTwoColumns | SectionHeader | TitleAndBody

  /** The layout of slide `i`: the first is a title slide, then every third has two columns and every fourth is a section header, two columns winning. */
  function LayoutOf(i: nat): Layout {
    if i == 0 then Title
    else if i % 3 == 0 then TitleAndTwoColumns
    else if i % 4 == 0 then SectionHeader
    else TitleAndBody
  }

  /** Only the first slide is a title slide, and after it the layouts repeat every twelve slides. */
  lemma LayoutCycle(i: nat)
    ensures LayoutOf(i) == Title <==> i == 0
    ensures i > 0 ==> LayoutOf(i + 12) == LayoutOf(i)
    ensures i > 0 && i % 12 == 0 ==> LayoutOf(i) == TitleAndTwoColumns
  {
    assert (i + 12) % 3 == i % 3 && (i + 12) % 4 == i % 4;
  }

  /** A request of either Slides batch. */
  datatype SlideRequest =
    | DeleteObject(objectId: string)
    | CreateSlide(layout: Layout, insertionIndex: nat)
    | InsertText(boxId: string, at: nat, text: Value)

  /**
   * The first batch: the default slide is deleted when there are slides to
   * create and the new presentation has one, then slide `i` is created at
   * position `i`. `existing` holds the new presentation's slide ids.
   */
  function LayoutBatch(n: nat, existing: seq<string>): seq<SlideRequest> {
    (if n > 0 && |existing| > 0 then [DeleteObject(existing[0])] else [])
    + seq(n, i requires 0 <= i < n => CreateSlide(LayoutOf(i), i))
  }

  /** The layout batch deletes at most the first default slide and creates one slide per position, in order. */
  lemma LayoutBatchShape(n: nat, existing: seq<string>)
    ensures var b := LayoutBatch(n, existing);
            var d := if n > 0 && |existing| > 0 then 1 else 0;
            && |b| == n + d
            && (d == 1 ==> b[0] == DeleteObject(existing[0]))
            && (forall j :: 0 <= j < |b| && b[j].DeleteObject? ==> j == 0 && d == 1)
            && (forall j :: d <= j < |b| ==> b[j] == CreateSlide(LayoutOf(j - d), j - d))
  {
  }

  // ---- slide content ----

  /** A page element: its id and whether it is a shape of type `TEXT_BOX`. */
  datatype Element = Element(objectId: string, isTextBox: bool)

  /** The ids of the text boxes, in page order. */
  function TextBoxes(elements: seq<Element>): (r: seq<string>)
    ensures |r| <= |elements|
  {
    if elements == [] then []
    else (if elements[0].isTextBox then [elements[0].objectId] else []) + TextBoxes(elements[1..])
  }

  /** `textBoxes[0] || null`: an empty id counts as none. */
  function TitleBox(boxes: seq<string>): Option<string> {
    if |boxes| > 0 && boxes[0] != "" then Some(boxes[0]) else None
  }

  /** `textBoxes[1] || textBoxes[0] || null`. */
  function BodyBox(boxes: seq<string>): Option<string> {
    if |boxes| > 1 && boxes[1] != "" then Some(boxes[1]) else TitleBox(boxes)
  }

  /** `s.replace(/\n{3,}/g, '\n\n')`: every run of three or more newlines becomes two. */
  function Collapse(s: string): (r: string)
    ensures |r| <= |s|
    ensures r == [] <==> s == []
    ensures r != [] ==> (r[0] == '\n' <==> s[0] == '\n')
    decreases |s|
  {
    if s == [] then []
    else if s[0] != '\n' then [s[0]] + Collapse(s[1..])
    else
      var n := NewlineRun(s);
      (if n >= 3 then "\n\n" else s[..n]) + Collapse(s[n..])
  }

  /** `k` newlines. */
  function Newlines(k: nat): (r: string)
    ensures |r| == k && forall i :: 0 <= i < k ==> r[i] == '\n'
  {
    seq(k, i => '\n')
  }

  /**
   * Collapsing works run by run: text that does not end in a newline
   * collapses on its own, whatever follows it.
   */
  lemma {:induction false} CollapseAppend(p: string, q: string)
    requires p == [] || p[|p| - 1] != '\n'
    ensures Collapse(p + q) == Collapse(p) + Collapse(q)
    decreases |p|
  {
    if p == [] {
      AppendEmpty(p, q);
    } else if p[0] != '\n' {
      CollapseAppend(p[1..], q);
      SplitAppend(p, q, 1);
      CollapseAtChar(p);
      CollapseAtChar(p + q);
      Regroup([p[0]], Collapse(p[1..]), Collapse(q));
    } else {
      var n := NewlineRun(p);
      RunEndsInside(p, n);
      CollapseAppend(p[n..], q);
      RunOfPrefix(p, q, n);
      SplitAppend(p, q, n);
      CollapseAtRun(p, n);
      CollapseAtRun(p + q, n);
      Regroup(if n >= 3 then "\n\n" else p[..n], Collapse(p[n..]), Collapse(q));
    }
  }

  lemma AppendEmpty(p: string, q: string)
    requires p == []
    ensures p + q == q
  {
  }

  lemma SplitAppend(p: string, q: string, n: nat)
    requires n <= |p|
    ensures (p + q)[..n] == p[..n] && (p + q)[n..] == p[n..] + q
  {
  }

  lemma Regroup(a: string, b: string, c: string)
    ensures a + (b + c) == (a + b) + c
  {
  }

  /** The leading newline run of text that does not end in a newline stops inside it. */
  lemma RunEndsInside(p: string, n: nat)
    requires p != [] && p[|p| - 1] != '\n' && n == NewlineRun(p)
    ensures n < |p|
  {
  }

  /** Collapsing text that starts with a character other than a newline. */
  lemma CollapseAtChar(s: string)
    requires s != [] && s[0] != '\n'
    ensures Collapse(s) == [s[0]] + Collapse(s[1..])
  {
  }

  /** Collapsing text that starts with a run of `n` newlines. */
  lemma CollapseAtRun(s: string, n: nat)
    requires s != [] && s[0] == '\n' && n == NewlineRun(s)
    ensures Collapse(s) == (if n >= 3 then "\n\n" else s[..n]) + Collapse(s[n..])
  {
  }

  /** A newline run that ends inside `p` is the run of `p + q` too. */
  lemma {:induction false} RunOfPrefix(p: string, q: string, n: nat)
    requires n == NewlineRun(p) && n < |p|
    ensures NewlineRun(p + q) == n
    decreases n
  {
    if n > 0 {
      assert (p + q)[1..] == p[1..] + q;
      RunOfPrefix(p[1..], q, n - 1);
    }
  }

  /**
   * A run of `k` newlines before text that does not start with one becomes
   * exactly two when `k` is three or more, and stays as it is otherwise.
   */
  lemma {:induction false} CollapseRun(k: nat, q: string)
    requires q == [] || q[0] != '\n'
    ensures Collapse(Newlines(k) + q) == (if k >= 3 then "\n\n" else Newlines(k)) + Collapse(q)
  {
    var s := Newlines(k) + q;
    if k == 0 {
      assert s == q;
    } else {
      RunOfNewlines(k, q);
      assert s[k..] == q;
      assert s[..k] == Newlines(k);
    }
  }

  lemma {:induction false} RunOfNewlines(k: nat, q: string)
    requires q == [] || q[0] != '\n'
    ensures NewlineRun(Newlines(k) + q) == k
    decreases k
  {
    if k == 0 {
      assert Newlines(k) + q == q;
    } else {
      assert (Newlines(k) + q)[1..] == Newlines(k - 1) + q;
      RunOfNewlines(k - 1, q);
    }
  }

  /** The number of newlines `s` starts with. */
  function NewlineRun(s: string): (n: nat)
    ensures n <= |s|
    ensures forall i :: 0 <= i < n ==> s[i] == '\n'
    ensures n < |s| ==> s[n] != '\n'
    ensures s != [] && s[0] == '\n' ==> n >= 1
  {
    if s == [] || s[0] != '\n' then 0 else 1 + NewlineRun(s[1..])
  }

  /** No three newlines in a row. */
  predicate NoTripleNewline(s: string) {
    forall i :: 0 <= i && i + 2 < |s| ==> !(s[i] == '\n' && s[i + 1] == '\n' && s[i + 2] == '\n')
  }

  /** The text without its newlines. */
  function Unlined(s: string): string {
    if s == [] then [] else (if s[0] == '\n' then [] else [s[0]]) + Unlined(s[1..])
  }

  lemma UnlinedAppend(a: string, b: string)
    ensures Unlined(a + b) == Unlined(a) + Unlined(b)
  {
    if a == [] {
      assert a + b == b;
    } else {
      assert (a + b)[0] == a[0];
      assert (a + b)[1..] == a[1..] + b;
      UnlinedAppend(a[1..], b);
    }
  }

  lemma UnlinedNewlines(s: string)
    requires forall i :: 0 <= i < |s| ==> s[i] == '\n'
    ensures Unlined(s) == []
  {
  }

  /** Collapsing leaves no run of three newlines. */
  lemma {:induction false} CollapseNoTriple(s: string)
    ensures NoTripleNewline(Collapse(s))
    decreases |s|
  {
    if s == [] {
    } else if s[0] != '\n' {
      CollapseNoTriple(s[1..]);
      var rest := Collapse(s[1..]);
      assert Collapse(s) == [s[0]] + rest;
      forall i | 0 <= i && i + 2 < |Collapse(s)|
        ensures !(Collapse(s)[i] == '\n' && Collapse(s)[i + 1] == '\n' && Collapse(s)[i + 2] == '\n')
      {
        if i > 0 {
          assert Collapse(s)[i] == rest[i - 1] && Collapse(s)[i + 1] == rest[i] && Collapse(s)[i + 2] == rest[i + 1];
        }
      }
    } else {
      var n := NewlineRun(s);
      CollapseNoTriple(s[n..]);
      var head := if n >= 3 then "\n\n" else s[..n];
      var rest := Collapse(s[n..]);
      assert Collapse(s) == head + rest;
      assert |head| <= 2 && forall i :: 0 <= i < |head| ==> head[i] == '\n';
      assert rest != [] ==> rest[0] != '\n';
      CollapseJoin(head, rest);
    }
  }

  /** Collapsing keeps every character other than a newline, in order. */
  lemma {:induction false} CollapseKeepsText(s: string)
    ensures Unlined(Collapse(s)) == Unlined(s)
    decreases |s|
  {
    if s == [] {
    } else if s[0] != '\n' {
      CollapseKeepsText(s[1..]);
      var rest := Collapse(s[1..]);
      assert Collapse(s) == [s[0]] + rest;
      UnlinedAppend([s[0]], rest);
      UnlinedAppend([s[0]], s[1..]);
      assert s == [s[0]] + s[1..];
    } else {
      var n := NewlineRun(s);
      CollapseKeepsText(s[n..]);
      RunKeepsText(s, n);
    }
  }

  /** A run of newlines, collapsed or not, contributes no text. */
  lemma RunKeepsText(s: string, n: nat)
    requires s != [] && s[0] == '\n' && n == NewlineRun(s)
    requires Unlined(Collapse(s[n..])) == Unlined(s[n..])
    ensures Unlined(Collapse(s)) == Unlined(s)
  {
    CollapsedRunDropped(s, n);
    RunDropped(s, n);
  }

  lemma CollapsedRunDropped(s: string, n: nat)
    requires s != [] && s[0] == '\n' && n == NewlineRun(s)
    ensures Unlined(Collapse(s)) == Unlined(Collapse(s[n..]))
  {
    var head := if n >= 3 then "\n\n" else s[..n];
    var rest := Collapse(s[n..]);
    assert Collapse(s) == head + rest;
    UnlinedAppend(head, rest);
    UnlinedNewlines(head);
  }

  lemma RunDropped(s: string, n: nat)
    requires n == NewlineRun(s)
    ensures Unlined(s) == Unlined(s[n..])
  {
    UnlinedAppend(s[..n], s[n..]);
    UnlinedNewlines(s[..n]);
    assert s == s[..n] + s[n..];
  }

  /** At most two newlines followed by text that does not start with one adds no triple. */
  lemma CollapseJoin(head: string, rest: string)
    requires |head| <= 2 && forall i :: 0 <= i < |head| ==> head[i] == '\n'
    requires NoTripleNewline(rest) && (rest != [] ==> rest[0] != '\n')
    ensures NoTripleNewline(head + rest)
  {
    var t := head + rest;
    forall i | 0 <= i && i + 2 < |t|
      ensures !(t[i] == '\n' && t[i + 1] == '\n' && t[i + 2] == '\n')
    {
      if i >= |head| {
        assert t[i] == rest[i - |head|] && t[i + 1] == rest[i - |head| + 1] && t[i + 2] == rest[i - |head| + 2];
      } else {
        assert t[|head|] == rest[0];
      }
    }
  }

  /** Text with no triple newline is left as it is, so collapsing twice is collapsing once. */
  lemma {:induction false} CollapseKeepsClean(s: string)
    requires NoTripleNewline(s)
    ensures Collapse(s) == s
    decreases |s|
  {
    if s == [] {
    } else if s[0] != '\n' {
      assert NoTripleNewline(s[1..]) by {
        forall i | 0 <= i && i + 2 < |s[1..]|
          ensures !(s[1..][i] == '\n' && s[1..][i + 1] == '\n' && s[1..][i + 2] == '\n')
        {
          assert s[1..][i] == s[i + 1] && s[1..][i + 1] == s[i + 2] && s[1..][i + 2] == s[i + 3];
        }
      }
      CollapseKeepsClean(s[1..]);
      assert s == [s[0]] + s[1..];
    } else {
      var n := NewlineRun(s);
      if |s| >= 3 {
        assert !(s[0] == '\n' && s[1] == '\n' && s[2] == '\n');
      }
      assert n < 3;
      assert NoTripleNewline(s[n..]) by {
        forall i | 0 <= i && i + 2 < |s[n..]|
          ensures !(s[n..][i] == '\n' && s[n..][i + 1] == '\n' && s[n..][i + 2] == '\n')
        {
          assert s[n..][i] == s[n + i] && s[n..][i + 1] == s[n + i + 1] && s[n..][i + 2] == s[n + i + 2];
        }
      }
      CollapseKeepsClean(s[n..]);
      assert s == s[..n] + s[n..];
    }
  }

  lemma CollapseIdempotent(s: string)
    ensures Collapse(Collapse(s)) == Collapse(s)
  {
    CollapseNoTriple(s);
    CollapseKeepsClean(Collapse(s));
  }

  /** The cleaned body text: trimmed, then collapsed. */
  function Clean(s: string): string {
    Collapse(Trim(s))
  }

  /**
   * The text requests of slide `i`: its title (default `Slide i+1`) at the
   * start of the first text box, and its content, cleaned, at the start of
   * the second. Reading a field of a missing slide, or `trim` of truthy
   * non-string content, throws. The source's branch that would put the
   * content after the title in a slide with one text box can never run,
   * because the body box falls back to that same box.
   */
  function SlideTexts(i: nat, slide: Value, elements: seq<Element>): Result<seq<SlideRequest>> {
    if slide.Undefined? || slide.Null? then Err("Cannot read properties of " + Display(slide) + " (reading 'title')")
    else
      var boxes := TextBoxes(elements);
      var body := BodyText(Or(OptionalGet(slide, "content"), Str("")), boxes);
      if body.Err? then Err(body.message) else Ok(TitleText(i, slide, boxes) + body.value)
  }

  /** The title, or `Slide i+1`, at the start of the title box when there is one. */
  function TitleText(i: nat, slide: Value, boxes: seq<string>): seq<SlideRequest> {
    var title := Or(OptionalGet(slide, "title"), Str("Slide " + NatString(i + 1)));
    var titleBox := TitleBox(boxes);
    if titleBox.Some? && Truthy(title) then [InsertText(titleBox.value, 0, title)] else []
  }

  /** The cleaned content at the start of the body box, when that is not the title box. */
  function BodyText(content: Value, boxes: seq<string>): Result<seq<SlideRequest>> {
    var titleBox, bodyBox := TitleBox(boxes), BodyBox(boxes);
    if bodyBox.Some? && Truthy(content) && bodyBox != titleBox then
      if !content.Str? then Err("slideContent.trim is not a function")
      else Ok([InsertText(bodyBox.value, 0, Str(Clean(content.s)))])
    else if titleBox.Some? && Truthy(content) && bodyBox.None? then
      assert false; Ok([])
    else Ok([])
  }

  /** The text requests of each slide that has a page to write to. */
  function SlideBatches(slides: seq<Value>, pages: seq<seq<Element>>): (r: seq<Result<seq<SlideRequest>>>)
    ensures |r| == Min(|slides|, |pages|)
    ensures forall i :: 0 <= i < |r| ==> r[i] == SlideTexts(i, slides[i], pages[i])
  {
    seq(Min(|slides|, |pages|), i requires 0 <= i < Min(|slides|, |pages|) => SlideTexts(i, slides[i], pages[i]))
  }

  /** The content batch for the first `k` slides, in slide order; the first slide that throws stops it. */
  function ContentUpTo(batches: seq<Result<seq<SlideRequest>>>, k: nat): Result<seq<SlideRequest>>
    requires k <= |batches|
  {
    if k == 0 then Ok([])
    else
      var before := ContentUpTo(batches, k - 1);
      if before.Err? then before
      else if batches[k - 1].Err? then Err(batches[k - 1].message)
      else Ok(before.value + batches[k - 1].value)
  }

  /** A slide that throws ends the content batch with its error, whatever follows. */
  lemma {:induction false} ContentStops(batches: seq<Result<seq<SlideRequest>>>, i: nat, m: nat)
    requires i < m <= |batches|
    requires ContentUpTo(batches, i).Ok? && batches[i].Err?
    ensures ContentUpTo(batches, m) == Err(batches[i].message)
    decreases m
  {
    if m > i + 1 {
      ContentStops(batches, i, m - 1);
    }
  }

  /** What `createPresentation` sends: the layout batch, then the content batch or the error that stopped it. */
  datatype Deck = Deck(layout: seq<SlideRequest>, content: Result<seq<SlideRequest>>)

  function Min(a: nat, b: nat): nat {
    if a <= b then a else b
  }

  /**
   * `createPresentation` after the presentation exists. `slides` is the
   * requested slides (empty when none are given), `existing` the new
   * presentation's slide ids, and `pages` the elements of each slide once
   * the layout batch has been applied. Nothing is sent without slides.
   */
  method CreatePresentation(slides: seq<Value>, existing: seq<string>, pages: seq<seq<Element>>) returns (r: Deck)
    ensures r.layout == LayoutBatch(|slides|, existing)
    ensures r.content == ContentUpTo(SlideBatches(slides, pages), Min(|slides|, |pages|))
    ensures slides == [] ==> r == Deck([], Ok([]))
  {
    if |slides| == 0 {
      return Deck([], Ok([]));
    }
    var requests := LayoutRequests(|slides|, existing);
    var content := FillSlides(SlideBatches(slides, pages));
    r := Deck(requests, content);
  }

  /** The first loop of `createPresentation`: the deletion, then one create request per slide. */
  method LayoutRequests(n: nat, existing: seq<string>) returns (requests: seq<SlideRequest>)
    ensures requests == LayoutBatch(n, existing)
  {
    requests := [];
    if n > 0 && |existing| > 0 {
      requests := requests + [DeleteObject(existing[0])];
    }
    ghost var deleted := requests;
    var i := 0;
    while i < n
      invariant 0 <= i <= n
      invariant requests == deleted + seq(i, j requires 0 <= j < i => CreateSlide(LayoutOf(j), j))
    {
      var layout := TitleAndBody;
      if i == 0 {
        layout := Title;
      } else if i % 3 == 0 {
        layout := TitleAndTwoColumns;
      } else if i % 4 == 0 {
        layout := SectionHeader;
      }
      requests := requests + [CreateSlide(layout, i)];
      i := i + 1;
    }
  }

  /** The second loop: each slide's text requests in turn, stopping at the first that throws. */
  method FillSlides(batches: seq<Result<seq<SlideRequest>>>) returns (r: Result<seq<SlideRequest>>)
    ensures r == ContentUpTo(batches, |batches|)
  {
    var contentRequests: seq<SlideRequest> := [];
    var i := 0;
    while i < |batches|
      invariant 0 <= i <= |batches|
      invariant ContentUpTo(batches, i) == Ok(contentRequests)
    {
      var texts := batches[i];
      if texts.Err? {
        ContentStops(batches, i, |batches|);
        return Err(texts.message);
      }
      contentRequests := contentRequests + texts.value;
      i := i + 1;
    }
    r := Ok(contentRequests);
  }

  /**
   * What one slide's text requests say: the title always goes to the start
   * of the first text box when there is one, defaulting to `Slide i+1`; at
   * most one more request carries the content, into another box, with no
   * run of three newlines.
   */
  lemma TitleTextShape(i: nat, slide: Value, boxes: seq<string>)
    ensures var title := OptionalGet(slide, "title");
            TitleText(i, slide, boxes) ==
              if |boxes| > 0 && boxes[0] != "" then
                [InsertText(boxes[0], 0, if Truthy(title) then title else Str("Slide " + NatString(i + 1)))]
              else []
  {
  }

  /**
   * At most one request carries the content: into the second text box, never
   * the title's, at its start, with no run of three newlines, and only when
   * the content is truthy.
   */
  lemma BodyTextShape(content: Value, boxes: seq<string>)
    requires BodyText(content, boxes).Ok?
    ensures var rs := BodyText(content, boxes).value;
            && |rs| <= 1
            && (rs != [] <==> Truthy(content) && |boxes| > 1 && boxes[1] != "" && (boxes[0] == "" || boxes[1] != boxes[0]))
            && (rs != [] ==> rs[0].boxId == boxes[1] && rs[0].at == 0
                             && content.Str? && rs[0].text == Str(Collapse(Trim(content.s)))
                             && NoTripleNewline(rs[0].text.s))
  {
    if content.Str? {
      CollapseNoTriple(Trim(content.s));
    }
  }

  /**
   * With a single text box the content is dropped: only the title is
   * written, whatever the slide's content.
   */
  lemma SingleBoxDropsContent(i: nat, slide: Value, elements: seq<Element>)
    requires |TextBoxes(elements)| == 1 && TextBoxes(elements)[0] != ""
    requires slide.Obj?
    ensures SlideTexts(i, slide, elements) ==
              Ok([InsertText(TextBoxes(elements)[0], 0, Or(OptionalGet(slide, "title"), Str("Slide " + NatString(i + 1))))])
  {
    assert BodyText(Or(OptionalGet(slide, "content"), Str("")), TextBoxes(elements)) == Ok([]);
    TitleTextShape(i, slide, TextBoxes(elements));
    var boxes := TextBoxes(elements);
    assert TitleText(i, slide, boxes) + [] == TitleText(i, slide, boxes);
  }

  /**
   * Content batches grow slide by slide: the requests of the first `k`
   * slides are a prefix of those of any later count.
   */
  lemma {:induction false} ContentPrefix(batches: seq<Result<seq<SlideRequest>>>, k: nat, m: nat)
    requires k <= m <= |batches|
    requires ContentUpTo(batches, m).Ok?
    ensures ContentUpTo(batches, k).Ok?
    ensures ContentUpTo(batches, k).value <= ContentUpTo(batches, m).value
    decreases m - k
  {
    if k < m {
      ContentPrefix(batches, k, m - 1);
    }
  }
}
