/** `splitWords` of internal/core/usecase/chat.go: cut a text after every space. */
module Words {
  import opened Texts
  import Utf8

  /** A piece that a space closes: it has one space, at its end. */
  predicate Closed(piece: string) {
    |piece| > 0 && piece[|piece| - 1] == ' ' && ' ' !in piece[..|piece| - 1]
  }

  /**
   What a client expects of the pieces of a text: nothing is lost, added or moved, and every
   space ends a piece.  An empty text still yields one (empty) piece.
   */
  predicate IsSplit(text: string, pieces: seq<string>) {
    && Concat(pieces) == text
    && |pieces| >= 1
    && (forall i :: 0 <= i < |pieces| - 1 ==> Closed(pieces[i]))
    && (var last := pieces[|pieces| - 1];
        Closed(last) || (' ' !in last && (last == "" ==> text == "")))
  }

  function FirstSpace(text: string): (n: nat)
    ensures n <= |text|
    ensures ' ' !in text[..n]
    ensures n < |text| ==> text[n] == ' '
  {
    if text == "" then 0
    else if text[0] == ' ' then 0
    else
      var n := 1 + FirstSpace(text[1..]);
      assert text[..n] == [text[0]] + text[1..][..n - 1];
      n
  }

  function SplitWords(text: string): (pieces: seq<string>)
    ensures IsSplit(text, pieces)
  {
    var n := FirstSpace(text);
    if n + 1 >= |text| then
      ConcatOne(text);
      assert n < |text| ==> text[..|text| - 1] == text[..n];
      assert n == |text| ==> text[..n] == text;
      [text]
    else
      var rest := SplitWords(text[n + 1..]);
      var pieces := [text[..n + 1]] + rest;
      assert pieces[1..] == rest;
      assert text[..n + 1][..n] == text[..n];
      assert text == text[..n + 1] + text[n + 1..];
      pieces
  }

  method SplitWordsLoop(text: string) returns (out: seq<string>)
    ensures out == SplitWords(text)
  {
    out := [];
    var cur := "";
    for i := 0 to |text|
      invariant Concat(out) + cur == text[..i]
      invariant ' ' !in cur
      invariant forall k :: 0 <= k < |out| ==> Closed(out[k])
    {
      assert text[..i + 1] == text[..i] + [text[i]];
      cur := cur + [text[i]];
      if text[i] == ' ' {
        ConcatSnoc(out, cur);
        out := out + [cur];
        cur := "";
      }
    }
    assert text[..|text|] == text;
    if cur != "" {
      ConcatSnoc(out, cur);
      out := out + [cur];
    }
    if |out| == 0 {
      ConcatOne(text);
      out := [text];
    }
    SplitIsUnique(text, out, SplitWords(text));
  }

  /** A closed piece has a space at its end and nowhere before. */
  lemma ClosedAt(piece: string)
    requires Closed(piece)
    ensures forall k :: 0 <= k < |piece| ==> (piece[k] == ' ' <==> k == |piece| - 1)
  {
    forall k | 0 <= k < |piece| - 1
      ensures piece[k] != ' '
    {
      assert piece[..|piece| - 1][k] == piece[k];
    }
  }

  /** A closed first piece is fixed by the text: it runs to the first space. */
  lemma ClosedHead(a: string, x: string, b: string, y: string)
    requires a + x == b + y
    requires Closed(a) && Closed(b)
    ensures a == b && x == y
  {
    var text := a + x;
    ClosedAt(a);
    ClosedAt(b);
    assert text[|a| - 1] == ' ' && (b + y)[|a| - 1] == ' ';
    assert text[|b| - 1] == ' ' && (b + y)[|b| - 1] == ' ';
    assert |a| == |b|;
    assert a == text[..|a|] && b == text[..|b|];
    assert x == text[|a|..] && y == text[|b|..];
  }

  lemma OnlyPiece(q: seq<string>)
    requires |q| == 1
    ensures Concat(q) == q[0] && q == [Concat(q)]
  {
    ConcatOne(q[0]);
    assert q == [q[0]];
  }

  lemma TailIsSplit(q: seq<string>)
    requires |q| >= 2 && IsSplit(Concat(q), q)
    ensures IsSplit(Concat(q[1..]), q[1..])
    ensures Concat(q[1..]) != ""
  {
    var t := q[1..];
    assert t[|t| - 1] == q[|q| - 1];
    forall i | 0 <= i < |t| - 1
      ensures Closed(t[i])
    {
      assert t[i] == q[i + 1];
    }
    assert t[0] == q[1];
    assert Closed(q[0]);
    assert Concat(q) == q[0] + Concat(t);
  }

  /** A text with more than one piece is not itself a piece. */
  lemma NotOnePiece(text: string, q: seq<string>)
    requires |q| >= 2 && IsSplit(text, q)
    ensures !IsSplit(text, [text])
  {
    TailIsSplit(q);
    var k := |q[0]| - 1;
    assert text == q[0] + Concat(q[1..]);
    assert text[k] == ' ' && text[..|text| - 1][k] == ' ';
    assert [text][0] == text;
  }

  /** The split of a text is unique, so `IsSplit` says all there is to say about `splitWords`. */
  lemma {:induction false} SplitIsUnique(text: string, p: seq<string>, q: seq<string>)
    requires IsSplit(text, p) && IsSplit(text, q)
    ensures p == q
    decreases |p|
  {
    if |p| == 1 {
      OnlyPiece(p);
      if |q| == 1 {
        OnlyPiece(q);
      } else {
        NotOnePiece(text, q);
      }
    } else if |q| == 1 {
      OnlyPiece(q);
      NotOnePiece(text, p);
    } else {
      assert text == p[0] + Concat(p[1..]) == q[0] + Concat(q[1..]);
      ClosedHead(p[0], Concat(p[1..]), q[0], Concat(q[1..]));
      TailIsSplit(p);
      TailIsSplit(q);
      SplitIsUnique(Concat(p[1..]), p[1..], q[1..]);
      assert p == [p[0]] + p[1..];
      assert q == [q[0]] + q[1..];
    }
  }

  function Spaces(text: string): nat {
    if text == "" then 0 else (if text[0] == ' ' then 1 else 0) + Spaces(text[1..])
  }

  lemma {:induction false} SpacesConcat(a: string, b: string)
    ensures Spaces(a + b) == Spaces(a) + Spaces(b)
  {
    if a == "" {
      assert a + b == b;
    } else {
      assert (a + b)[1..] == a[1..] + b;
      SpacesConcat(a[1..], b);
    }
  }

  lemma {:induction false} NoSpaces(a: string)
    requires ' ' !in a
    ensures Spaces(a) == 0
  {
    if a != "" {
      NoSpaces(a[1..]);
    }
  }

  lemma ClosedSpaces(a: string)
    requires Closed(a)
    ensures Spaces(a) == 1
  {
    var n := |a| - 1;
    assert a == a[..n] + [' '];
    NoSpaces(a[..n]);
    SpacesConcat(a[..n], [' ']);
    assert Spaces([' ']) == 1 by { assert [' '][1..] == ""; }
  }

  /** How many chunks a stream of this text has before its final one. */
  lemma {:induction false} PieceCount(text: string, pieces: seq<string>)
    requires IsSplit(text, pieces)
    ensures |pieces| == Spaces(text) + if text != "" && text[|text| - 1] == ' ' then 0 else 1
    decreases |pieces|
  {
    if |pieces| == 1 {
      OnlyPiece(pieces);
      if Closed(text) {
        ClosedSpaces(text);
      } else {
        NoSpaces(text);
      }
    } else {
      var h, t := pieces[0], Concat(pieces[1..]);
      assert text == h + t;
      TailIsSplit(pieces);
      PieceCount(t, pieces[1..]);
      ClosedSpaces(h);
      SpacesConcat(h, t);
      assert text[|text| - 1] == t[|t| - 1];
    }
  }

  function TotalLen(pieces: seq<string>): nat {
    if pieces == [] then 0 else Utf8.Len(pieces[0]) + TotalLen(pieces[1..])
  }

  /** The byte lengths of the pieces add up to the byte length of the text. */
  lemma {:induction false} PieceBytes(pieces: seq<string>)
    ensures TotalLen(pieces) == Utf8.Len(Concat(pieces))
  {
    if pieces != [] {
      PieceBytes(pieces[1..]);
      Utf8.EncodeConcat(pieces[0], Concat(pieces[1..]));
    }
  }

  /** Every piece of a non-empty text says something, so no word chunk is empty. */
  lemma PiecesNonEmpty(text: string)
    requires text != ""
    ensures forall i :: 0 <= i < |SplitWords(text)| ==> SplitWords(text)[i] != ""
  {
  }
}
