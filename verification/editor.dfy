/**
 * The host editor as the autocomplete logic and the weekly-summary command
 * see it: a document of lines plus a cursor `(line, ch)`.
 *
 * Only the editor operations the plugin calls are modelled: inserting text at
 * the cursor (`replaceRange(text, cursor)`), deleting a range within one line
 * (`replaceRange("", start, end)`) and moving the cursor (`setCursor`).
 * Positions are clipped to the document the way CodeMirror's `clipPos` does,
 * and a cursor sitting exactly at an insertion point stays before the
 * inserted text.
 */
module Editor {

  datatype Pos = Pos(line: nat, ch: nat)

  datatype Doc = Doc(lines: seq<string>, cursor: Pos)

  predicate ValidPos(lines: seq<string>, p: Pos)
  {
    p.line < |lines| && p.ch <= |lines[p.line]|
  }

  /** A document has at least one line, and no line holds a line break. */
  predicate LinesOk(lines: seq<string>)
  {
    |lines| > 0 && forall i | 0 <= i < |lines| :: '\n' !in lines[i]
  }

  predicate Valid(d: Doc)
  {
    LinesOk(d.lines) && ValidPos(d.lines, d.cursor)
  }

  /** The document text: the lines separated by line breaks. */
  function Join(lines: seq<string>): string
    requires |lines| > 0
  {
    if |lines| == 1 then lines[0] else lines[0] + "\n" + Join(lines[1..])
  }

  function Text(d: Doc): string
    requires |d.lines| > 0
  {
    Join(d.lines)
  }

  /** Break a text into lines at its line breaks. */
  function Split(t: string): (r: seq<string>)
    ensures |r| > 0
    ensures forall i | 0 <= i < |r| :: '\n' !in r[i]
    ensures '\n' !in t ==> r == [t]
  {
    if t == [] then [""]
    else
      assert '\n' !in t ==> '\n' !in t[1..] && t == [t[0]] + t[1..];
      var rest := Split(t[1..]);
      if t[0] == '\n' then [""] + rest
      else [[t[0]] + rest[0]] + rest[1..]
  }

  /** CodeMirror's `clipPos`: a line past the end clips to the end of the
      document, a column past the end of its line clips to the line end. */
  function Clip(lines: seq<string>, p: Pos): (r: Pos)
    requires |lines| > 0
    ensures ValidPos(lines, r)
    ensures ValidPos(lines, p) ==> r == p
    ensures p.line < |lines| ==> r.line == p.line
    ensures p.line < |lines| ==> r.ch <= p.ch && (r.ch < p.ch ==> r.ch == |lines[p.line]|)
    ensures p.line >= |lines| ==> r.line == |lines| - 1 && r.ch == |lines[r.line]|
  {
    if p.line >= |lines| then Pos(|lines| - 1, |lines[|lines| - 1]|)
    else if p.ch > |lines[p.line]| then Pos(p.line, |lines[p.line]|)
    else p
  }

  /** Put `pre` in front of the first line and `post` after the last one. */
  function Splice(pre: string, parts: seq<string>, post: string): (r: seq<string>)
    requires |parts| > 0
    ensures |r| == |parts|
  {
    var q := parts[|parts| - 1 := parts[|parts| - 1] + post];
    q[0 := pre + q[0]]
  }

  /** The text before the cursor, and the text from the cursor on. */
  function Before(d: Doc): string
    requires Valid(d)
  {
    var l := d.cursor.line;
    (if l == 0 then "" else Join(d.lines[..l]) + "\n") + d.lines[l][..d.cursor.ch]
  }

  function After(d: Doc): string
    requires Valid(d)
  {
    var l := d.cursor.line;
    d.lines[l][d.cursor.ch..] + (if l + 1 == |d.lines| then "" else "\n" + Join(d.lines[l + 1..]))
  }

  /** `replaceRange(text, cursor)`: insert `text` at the cursor. The line
      breaks in `text` become new lines; the cursor stays in front of the
      inserted text. */
  function InsertAtCursor(d: Doc, text: string): (r: Doc)
    requires Valid(d)
    ensures Valid(r)
    ensures r.cursor == d.cursor
    ensures '\n' !in text ==>
              r.lines == d.lines[d.cursor.line :=
                d.lines[d.cursor.line][..d.cursor.ch] + text + d.lines[d.cursor.line][d.cursor.ch..]]
  {
    var l := d.cursor.line;
    var line := d.lines[l];
    var pre, post := line[..d.cursor.ch], line[d.cursor.ch..];
    assert '\n' !in pre && '\n' !in post by {
      assert forall x | x in pre :: x in line;
      assert forall x | x in post :: x in line;
    }
    var parts := Split(text);
    var mid := Splice(pre, parts, post);
    assert forall i | 0 <= i < |mid| :: '\n' !in mid[i];
    var lines := d.lines[..l] + mid + d.lines[l + 1..];
    assert forall i | 0 <= i < |lines| :: '\n' !in lines[i] by {
      forall i | 0 <= i < |lines| ensures '\n' !in lines[i] {
        if i < l {
          assert lines[i] == d.lines[i];
        } else if i >= l + |mid| {
          assert lines[i] == d.lines[i - |mid| + 1];
        } else {
          assert lines[i] == mid[i - l];
        }
      }
    }
    assert lines[l] == mid[0];
    assert '\n' !in text ==> lines == d.lines[l := pre + text + post] by {
      if '\n' !in text {
        assert parts == [text];
        assert [text][0 := text + post] == [text + post];
        assert mid == [pre + (text + post)];
        assert pre + (text + post) == pre + text + post;
        var x := pre + text + post;
        assert |lines| == |d.lines|;
        forall i | 0 <= i < |lines| ensures lines[i] == d.lines[l := x][i] {
          if i < l {
            assert lines[i] == d.lines[..l][i];
          } else if i > l {
            assert lines[i] == d.lines[l + 1..][i - l - 1];
          }
        }
      }
    }
    Doc(lines, d.cursor)
  }

  /** `replaceRange("", start, end)` with `end` on the same line `n` columns
      after `start`: both ends are clipped, the characters between them are
      removed, and a cursor after the removed text moves left with it. */
  function DeleteRange(d: Doc, start: Pos, n: nat): (r: Doc)
    requires Valid(d)
    ensures Valid(r)
    ensures |r.lines| == |d.lines|
    ensures forall i | 0 <= i < |d.lines| && i != Clip(d.lines, start).line :: r.lines[i] == d.lines[i]
    ensures ValidPos(d.lines, start) && start.ch + n <= |d.lines[start.line]| ==>
              r.lines[start.line] == d.lines[start.line][..start.ch] + d.lines[start.line][start.ch + n..]
    ensures d.cursor == start ==> r.cursor == start
  {
    var a := Clip(d.lines, start);
    var b := Clip(d.lines, Pos(start.line, start.ch + n));
    var line := d.lines[a.line];
    var c := d.cursor;
    var c' := if c.line == a.line && c.ch > a.ch
              then Pos(c.line, if c.ch >= b.ch then c.ch - (b.ch - a.ch) else a.ch)
              else c;
    var kept := line[..a.ch] + line[b.ch..];
    assert '\n' !in kept by {
      assert forall x | x in kept :: x in line;
    }
    Doc(d.lines[a.line := kept], c')
  }

  /** `setCursor`: move the cursor to the clipped position. */
  function SetCursor(d: Doc, p: Pos): (r: Doc)
    requires Valid(d)
    ensures Valid(r)
    ensures r.lines == d.lines
    ensures ValidPos(d.lines, p) ==> r.cursor == p
  {
    d.(cursor := Clip(d.lines, p))
  }

  // ---------------------------------------------------------------- lemmas

  lemma JoinPrepend(x: string, ls: seq<string>)
    requires |ls| > 0
    ensures Join(ls[0 := x + ls[0]]) == x + Join(ls)
  {
    if |ls| > 1 {
      assert ls[0 := x + ls[0]][1..] == ls[1..];
    }
  }

  lemma {:induction false} JoinAppendLast(ls: seq<string>, y: string)
    requires |ls| > 0
    ensures Join(ls[|ls| - 1 := ls[|ls| - 1] + y]) == Join(ls) + y
    decreases |ls|
  {
    if |ls| > 1 {
      var ls' := ls[|ls| - 1 := ls[|ls| - 1] + y];
      var tail := ls[1..];
      assert ls'[1..] == tail[|tail| - 1 := tail[|tail| - 1] + y];
      JoinAppendLast(tail, y);
      assert Join(ls'[1..]) == Join(tail) + y;
      assert ls'[0] == ls[0];
      assert Join(ls') == ls[0] + "\n" + Join(ls'[1..]);
      assert Join(ls) == ls[0] + "\n" + Join(tail);
    }
  }

  lemma {:induction false} JoinAppend(a: seq<string>, b: seq<string>)
    requires |a| > 0 && |b| > 0
    ensures Join(a + b) == Join(a) + "\n" + Join(b)
    decreases |a|
  {
    if |a| > 1 {
      assert (a + b)[1..] == a[1..] + b;
      JoinAppend(a[1..], b);
    } else {
      assert (a + b)[1..] == b;
    }
  }

  lemma JoinSplice(pre: string, parts: seq<string>, post: string)
    requires |parts| > 0
    ensures Join(Splice(pre, parts, post)) == pre + Join(parts) + post
  {
    var q := parts[|parts| - 1 := parts[|parts| - 1] + post];
    var r := q[0 := pre + q[0]];
    assert r == Splice(pre, parts, post);
    var jq := Join(q);
    assert jq == Join(parts) + post by {
      JoinAppendLast(parts, post);
    }
    assert Join(r) == pre + jq by {
      JoinPrepend(pre, q);
    }
    Assoc(pre, Join(parts), post);
  }

  // Regroupings of concatenations that the solver finds slowly on its own.

  lemma Assoc(a: string, b: string, c: string)
    ensures a + (b + c) == a + b + c
  {
  }

  lemma AssocAround(p: string, x: string, y: string, s: string)
    ensures p + (x + y) + s == (p + x) + (y + s)
  {
  }

  lemma AssocMiddle(p: string, x: string, y: string, z: string, s: string)
    ensures p + (x + y + z) + s == p + x + y + z + s
  {
  }

  /** Splitting at line breaks and joining back gives the text again. */
  lemma {:induction false} JoinSplit(t: string)
    ensures Join(Split(t)) == t
    decreases |t|
  {
    if t != [] {
      var c, rest := t[0], Split(t[1..]);
      JoinSplit(t[1..]);
      assert Join(Split(t)) == [c] + Join(rest) by {
        if c == '\n' {
          assert Split(t) == [""] + rest;
          JoinNewline(rest);
        } else {
          assert Split(t) == rest[0 := [c] + rest[0]];
          JoinPrepend([c], rest);
        }
      }
      HeadTail(t);
    }
  }

  lemma HeadTail(t: string)
    requires t != []
    ensures t == [t[0]] + t[1..]
  {
  }

  lemma JoinNewline(ls: seq<string>)
    requires |ls| > 0
    ensures Join([""] + ls) == "\n" + Join(ls)
  {
    var r := [""] + ls;
    assert r[1..] == ls;
    assert "" + "\n" == "\n";
  }

  lemma {:induction false} SplitPrefix(a: string, t: string)
    requires '\n' !in a
    ensures Split(a + t) == [a + Split(t)[0]] + Split(t)[1..]
    decreases |a|
  {
    var big := Split(t);
    if a != [] {
      var c, a' := a[0], a[1..];
      assert '\n' !in a' by {
        assert forall x | x in a' :: x in a;
      }
      SplitPrefix(a', t);
      var r := Split(a' + t);
      assert Split(a + t) == [[c] + r[0]] + r[1..] by {
        assert (a + t)[0] == c && c != '\n';
        assert (a + t)[1..] == a' + t;
      }
      assert r[0] == a' + big[0] && r[1..] == big[1..];
      assert [c] + (a' + big[0]) == a + big[0] by {
        HeadTail(a);
      }
    } else {
      assert a + t == t;
      assert a + big[0] == big[0];
      assert [big[0]] + big[1..] == big;
    }
  }

  /** Joining lines without line breaks and splitting again gives the lines. */
  lemma {:induction false} SplitJoin(ls: seq<string>)
    requires LinesOk(ls)
    ensures Split(Join(ls)) == ls
    decreases |ls|
  {
    if |ls| > 1 {
      assert LinesOk(ls[1..]) by {
        forall i | 0 <= i < |ls[1..]| ensures '\n' !in ls[1..][i] {
          assert ls[1..][i] == ls[i + 1];
        }
      }
      SplitJoin(ls[1..]);
      var t := "\n" + Join(ls[1..]);
      SplitPrefix(ls[0], t);
      assert t[1..] == Join(ls[1..]);
      assert Split(t) == [""] + ls[1..];
      assert Join(ls) == ls[0] + t;
      assert ls[0] + "" == ls[0];
      assert [ls[0]] + ls[1..] == ls;
    } else {
      assert '\n' !in ls[0];
    }
  }

  /** The text splits at the cursor into `Before` and `After`. */
  lemma TextAroundCursor(d: Doc)
    requires Valid(d)
    ensures Text(d) == Before(d) + After(d)
  {
    var l := d.cursor.line;
    var line := d.lines[l];
    var a, b := d.lines[..l], d.lines[l + 1..];
    assert d.lines == a + [line] + b;
    JoinAround(a, [line], b);
    var p := if a == [] then "" else Join(a) + "\n";
    var s := if b == [] then "" else "\n" + Join(b);
    assert (a == []) == (l == 0);
    assert (b == []) == (l + 1 == |d.lines|);
    assert Before(d) == p + line[..d.cursor.ch];
    assert After(d) == line[d.cursor.ch..] + s;
    assert line == line[..d.cursor.ch] + line[d.cursor.ch..];
    AssocAround(p, line[..d.cursor.ch], line[d.cursor.ch..], s);
  }

  /** Joining around a middle block: the lines before it, a line break, the
      block, a line break, the lines after it (missing parts and their line
      breaks left out). */
  lemma JoinAround(a: seq<string>, mid: seq<string>, b: seq<string>)
    requires |mid| > 0
    ensures Join(a + mid + b)
            == (if a == [] then "" else Join(a) + "\n") + Join(mid)
               + (if b == [] then "" else "\n" + Join(b))
  {
    var tail := mid + b;
    if b != [] {
      JoinAppend(mid, b);
    } else {
      assert tail == mid;
    }
    if a != [] {
      JoinAppend(a, tail);
      assert a + mid + b == a + tail;
    } else {
      assert a + mid + b == tail;
    }
  }

  /** Replacing a line `pre + post` by the lines of `pre + text + post`
      puts `text` between the two halves of the joined text. */
  lemma JoinInsert(a: seq<string>, b: seq<string>, pre: string, text: string, post: string)
    ensures Join(a + Splice(pre, Split(text), post) + b)
            == (if a == [] then "" else Join(a) + "\n") + pre + text
               + post + (if b == [] then "" else "\n" + Join(b))
  {
    var parts := Split(text);
    var mid := Splice(pre, parts, post);
    assert Join(mid) == pre + text + post by {
      JoinSplice(pre, parts, post);
      JoinSplit(text);
    }
    JoinAround(a, mid, b);
    var p := if a == [] then "" else Join(a) + "\n";
    var s := if b == [] then "" else "\n" + Join(b);
    AssocMiddle(p, pre, text, post, s);
  }

  /** `replaceRange(text, cursor)` puts exactly `text` between the text
      before the cursor and the text after it, and changes nothing else. */
  lemma InsertAtCursorText(d: Doc, text: string)
    requires Valid(d)
    ensures Text(d) == Before(d) + After(d)
    ensures Text(InsertAtCursor(d, text)) == Before(d) + text + After(d)
  {
    TextAroundCursor(d);
    var l := d.cursor.line;
    var line := d.lines[l];
    var pre, post := line[..d.cursor.ch], line[d.cursor.ch..];
    var a, b := d.lines[..l], d.lines[l + 1..];
    assert InsertAtCursor(d, text).lines == a + Splice(pre, Split(text), post) + b;
    JoinInsert(a, b, pre, text, post);
    assert (a == []) == (l == 0);
    assert (b == []) == (l + 1 == |d.lines|);
  }

  /** Deleting, from the cursor, as many characters as were just inserted
      there on one line restores the document exactly. */
  lemma DeleteUndoesInsert(d: Doc, text: string)
    requires Valid(d)
    requires '\n' !in text
    ensures DeleteRange(InsertAtCursor(d, text), d.cursor, |text|) == d
  {
    var l := d.cursor.line;
    var line := d.lines[l];
    var pre, post := line[..d.cursor.ch], line[d.cursor.ch..];
    var d1 := InsertAtCursor(d, text);
    var line1 := pre + text + post;
    assert d1.lines[l] == line1;
    assert line1[..d.cursor.ch] + line1[d.cursor.ch + |text|..] == line;
    assert d1.lines[l := line] == d.lines;
  }
}
