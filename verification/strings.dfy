/**
 * Python's `str.split(sep)` for a non-empty separator, and its inverse
 * `sep.join(pieces)`.
 */
module PyStrings {

  /**
   * `text.split(sep)`: scans left to right and cuts at every non-overlapping
   * occurrence of `sep`; always yields at least one piece.
   */
  function Split(text: string, sep: string): (pieces: seq<string>)
    requires |sep| > 0
    ensures |pieces| >= 1
    decreases |text|
  {
    if |text| < |sep| then [text]
    else if text[..|sep|] == sep then [""] + Split(text[|sep|..], sep)
    else
      var rest := Split(text[1..], sep);
      [[text[0]] + rest[0]] + rest[1..]
  }

  /** `sep.join(pieces)` */
  function Join(pieces: seq<string>, sep: string): (text: string)
    requires |pieces| >= 1
    decreases |pieces|
  {
    if |pieces| == 1 then pieces[0] else pieces[0] + sep + Join(pieces[1..], sep)
  }

  /** Prepending a character to the first piece prepends it to the joined text. */
  lemma {:induction false} JoinConsHead(c: char, pieces: seq<string>, sep: string)
    requires |pieces| >= 1
    ensures Join([[c] + pieces[0]] + pieces[1..], sep) == [c] + Join(pieces, sep)
  {
    var ps := [[c] + pieces[0]] + pieces[1..];
    if |pieces| > 1 {
      assert ps[1..] == pieces[1..];
    }
  }

  /** Joining the pieces of a split gives back the text: no character is lost or added. */
  lemma {:induction false} JoinSplit(text: string, sep: string)
    requires |sep| > 0
    ensures Join(Split(text, sep), sep) == text
    decreases |text|
  {
    if |text| < |sep| {
    } else if text[..|sep|] == sep {
      var rest := Split(text[|sep|..], sep);
      JoinSplit(text[|sep|..], sep);
      assert ([""] + rest)[1..] == rest;
      assert text == text[..|sep|] + text[|sep|..];
    } else {
      var rest := Split(text[1..], sep);
      JoinSplit(text[1..], sep);
      JoinConsHead(text[0], rest, sep);
      assert text == [text[0]] + text[1..];
    }
  }

  /** A text free of the one-character separator is not cut at all. */
  lemma {:induction false} SplitWithout(text: string, c: char)
    requires c !in text
    ensures Split(text, [c]) == [text]
    decreases |text|
  {
    if |text| >= 1 {
      assert text[..1] == [text[0]];
      SplitWithout(text[1..], c);
      assert text == [text[0]] + text[1..];
    }
  }

  /** A piece free of the separator, then the separator: the split cuts exactly there. */
  lemma {:induction false} SplitAtFirst(piece: string, c: char, rest: string)
    requires c !in piece
    ensures Split(piece + [c] + rest, [c]) == [piece] + Split(rest, [c])
    decreases |piece|
  {
    var t := piece + [c] + rest;
    if |piece| == 0 {
      assert t == [c] + rest;
      assert t[..1] == [c];
      assert t[1..] == rest;
    } else {
      assert t[..1] == [piece[0]];
      assert t[1..] == piece[1..] + [c] + rest;
      SplitAtFirst(piece[1..], c, rest);
      assert [piece[0]] + piece[1..] == piece;
    }
  }

  /**
   * Splitting pieces that were joined with a one-character separator none of
   * them contains gives back exactly those pieces.
   */
  lemma {:induction false} SplitJoin(pieces: seq<string>, c: char)
    requires |pieces| >= 1
    requires forall i :: 0 <= i < |pieces| ==> c !in pieces[i]
    ensures Split(Join(pieces, [c]), [c]) == pieces
    decreases |pieces|
  {
    if |pieces| == 1 {
      SplitWithout(pieces[0], c);
    } else {
      SplitJoin(pieces[1..], c);
      assert Join(pieces, [c]) == pieces[0] + [c] + Join(pieces[1..], [c]);
      SplitAtFirst(pieces[0], c, Join(pieces[1..], [c]));
      assert [pieces[0]] + pieces[1..] == pieces;
    }
  }

  /** No piece of a split on a one-character separator contains that character. */
  lemma {:induction false} SplitPiecesFree(text: string, c: char)
    ensures forall i :: 0 <= i < |Split(text, [c])| ==> c !in Split(text, [c])[i]
    decreases |text|
  {
    if |text| >= 1 {
      SplitPiecesFree(text[1..], c);
      assert text[..1] == [text[0]];
    }
  }
}
