/** Splitting text at separators, and joining it back. */
module Text {

  /** The pieces between the characters that satisfy `p`: one more than there are such characters. */
  function Split(p: char -> bool, text: string): (pieces: seq<string>)
    ensures pieces != []
  {
    if text == "" then [""]
    else
      var rest := Split(p, text[1..]);
      if p(text[0]) then [""] + rest else [[text[0]] + rest[0]] + rest[1..]
  }

  function Join(separator: char, pieces: seq<string>): string {
    if pieces == [] then ""
    else if |pieces| == 1 then pieces[0]
    else pieces[0] + [separator] + Join(separator, pieces[1..])
  }

  predicate Without(p: char -> bool, piece: string) {
    forall c :: c in piece ==> !p(c)
  }

  lemma {:induction false} SplitPiece(p: char -> bool, piece: string)
    requires Without(p, piece)
    ensures Split(p, piece) == [piece]
  {
    if piece != "" {
      SplitPiece(p, piece[1..]);
      assert [piece[0]] + piece[1..] == piece;
    }
  }

  lemma {:induction false} SplitFirst(p: char -> bool, piece: string, separator: char, rest: string)
    requires Without(p, piece) && p(separator)
    ensures Split(p, piece + [separator] + rest) == [piece] + Split(p, rest)
  {
    var text := piece + [separator] + rest;
    if piece == "" {
      assert text[1..] == rest;
    } else {
      SplitFirst(p, piece[1..], separator, rest);
      assert text[1..] == piece[1..] + [separator] + rest;
      assert [piece[0]] + piece[1..] == piece;
    }
  }

  /** Joining pieces that hold no separator can be undone. */
  lemma {:induction false} SplitJoin(p: char -> bool, separator: char, pieces: seq<string>)
    requires pieces != [] && p(separator) && forall piece :: piece in pieces ==> Without(p, piece)
    ensures Split(p, Join(separator, pieces)) == pieces
  {
    if |pieces| == 1 {
      SplitPiece(p, pieces[0]);
    } else {
      SplitFirst(p, pieces[0], separator, Join(separator, pieces[1..]));
      SplitJoin(p, separator, pieces[1..]);
    }
  }

  /** `lower`, on the characters the callers admit. */
  function LowerChar(c: char): char {
    if 'A' <= c <= 'Z' then c - 'A' + 'a' else c
  }

  function Lower(s: string): (t: string)
    ensures |t| == |s| && forall i :: 0 <= i < |s| ==> t[i] == LowerChar(s[i])
  {
    seq(|s|, i requires 0 <= i < |s| => LowerChar(s[i]))
  }
}
