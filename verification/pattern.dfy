/** The meaning of the two anchored regular expressions the handlers test
    input against, `/^0x[a-fA-F0-9]{40}$/` and `/^\d{10}$/`. Both are a
    sequence of pieces `class{count}` between `^` and `$`, so that is all
    this module gives a semantics to. */
module Pattern {
  import opened Text

  datatype CharClass = Literal(c: char) | HexDigit | Digit

  /** `cls{count}`: exactly `count` characters of class `cls`. */
  datatype Piece = Piece(cls: CharClass, count: nat)

  predicate InClass(c: char, cls: CharClass) {
    match cls
    case Literal(l) => c == l
    case HexDigit => IsHexDigit(c)
    case Digit => IsAsciiDigit(c)
  }

  /** `s` as a whole matches `^p[0]p[1]...$`, consuming one character at a
      time. (`$` without the `m` flag matches only at the end of input.) */
  predicate FullMatch(p: seq<Piece>, s: string)
    decreases |s|, |p|
  {
    if |p| == 0 then |s| == 0
    else if p[0].count == 0 then FullMatch(p[1..], s)
    else && |s| > 0
         && InClass(s[0], p[0].cls)
         && FullMatch([Piece(p[0].cls, p[0].count - 1)] + p[1..], s[1..])
  }

  /** A leading piece `cls{n}` matches exactly the first `n` characters when
      they are all of class `cls`, and the rest must match what follows. */
  lemma {:induction false} LeadingPiece(cls: CharClass, n: nat, rest: seq<Piece>, s: string)
    ensures FullMatch([Piece(cls, n)] + rest, s)
        <==> && n <= |s|
             && (forall k :: 0 <= k < n ==> InClass(s[k], cls))
             && FullMatch(rest, s[n..])
    decreases n
  {
    var p := [Piece(cls, n)] + rest;
    if n == 0 {
      assert p[1..] == rest;
    } else {
      assert p[1..] == rest;
      if |s| > 0 {
        LeadingPiece(cls, n - 1, rest, s[1..]);
        if n <= |s| {
          assert s[1..][n - 1..] == s[n..];
          if InClass(s[0], cls) && (forall k :: 0 <= k < n - 1 ==> InClass(s[1..][k], cls)) {
            forall k | 0 <= k < n
              ensures InClass(s[k], cls)
            {
              if k > 0 {
                assert s[k] == s[1..][k - 1];
              }
            }
          }
        }
      }
    }
  }
}
