/**
 String operations of the standard library that the harness relies on: trimming and
 whitespace as Unicode defines it, splitting and joining on one separator character.
 Characters are Unicode scalar values.
 */
module Text {

  datatype Option<+T> = None | Some(value: T) {
    function GetOr(default: T): T {
      if Some? then value else default
    }
  }

  datatype Result<+T, +E> = Ok(value: T) | Err(error: E)

  lemma {:induction false} ConcatIsAssociative<T>(a: seq<T>, b: seq<T>, c: seq<T>)
    ensures (a + b) + c == a + (b + c)
  {
  }

  lemma {:induction false} InitAndLast<T>(s: seq<T>)
    requires s != []
    ensures s[..|s| - 1] + [s[|s| - 1]] == s
  {
  }

  lemma {:induction false} ConcatWithEmpty<T>(s: seq<T>)
    ensures [] + s == s == s + []
  {
  }

  /** The characters with the Unicode property White_Space. */
  predicate IsWhitespace(c: char) {
    var n := c as int;
    || 9 <= n <= 13 || n == 0x20 || n == 0x85 || n == 0xA0 || n == 0x1680
    || 0x2000 <= n <= 0x200A || n == 0x2028 || n == 0x2029 || n == 0x202F || n == 0x205F || n == 0x3000
  }

  predicate AllWhitespace(s: string) {
    forall i | 0 <= i < |s| :: IsWhitespace(s[i])
  }

  function TrimStart(s: string): string {
    if s != [] && IsWhitespace(s[0]) then TrimStart(s[1..]) else s
  }

  function TrimEnd(s: string): string {
    if s != [] && IsWhitespace(s[|s| - 1]) then TrimEnd(s[..|s| - 1]) else s
  }

  function Trim(s: string): string {
    TrimEnd(TrimStart(s))
  }

  predicate IsTrimmed(s: string) {
    s == [] || (!IsWhitespace(s[0]) && !IsWhitespace(s[|s| - 1]))
  }

  /** What trimming takes away is whitespace. */
  lemma {:induction false} TrimStartSuffix(s: string) returns (k: nat)
    ensures k <= |s| && TrimStart(s) == s[k..] && AllWhitespace(s[..k])
    ensures TrimStart(s) == [] || !IsWhitespace(TrimStart(s)[0])
  {
    k := 0;
    if s != [] && IsWhitespace(s[0]) {
      var rest := s[1..];
      k := TrimStartSuffix(rest);
      assert rest[k..] == s[k + 1..];
      assert s[..k + 1] == [s[0]] + rest[..k];
      k := k + 1;
    }
  }

  lemma {:induction false} TrimEndPrefix(s: string) returns (k: nat)
    ensures k <= |s| && TrimEnd(s) == s[..k] && AllWhitespace(s[k..])
    ensures TrimEnd(s) == [] || !IsWhitespace(TrimEnd(s)[|TrimEnd(s)| - 1])
  {
    k := |s|;
    if s != [] && IsWhitespace(s[|s| - 1]) {
      var prefix := s[..|s| - 1];
      k := TrimEndPrefix(prefix);
      assert prefix[..k] == s[..k];
      assert s[k..] == prefix[k..] + [s[|s| - 1]];
    }
  }

  /** Trimming leaves no whitespace at either end, and only trimmed strings are left alone. */
  lemma {:induction false} TrimIsIdempotent(s: string)
    ensures IsTrimmed(Trim(s))
    ensures Trim(s) == s <==> IsTrimmed(s)
    ensures Trim(Trim(s)) == Trim(s)
  {
    var k := TrimStartSuffix(s);
    var n := TrimEndPrefix(TrimStart(s));
  }

  function Join(parts: seq<string>, separator: char): string {
    if parts == [] then ""
    else if |parts| == 1 then parts[0]
    else parts[0] + [separator] + Join(parts[1..], separator)
  }

  /** The pieces of `s` between separators; never empty. */
  function Split(s: string, separator: char): (parts: seq<string>)
    ensures parts != []
    ensures forall part | part in parts :: separator !in part
  {
    if s == [] then [""]
    else
      var rest := Split(s[1..], separator);
      if s[0] == separator then [""] + rest
      else [[s[0]] + rest[0]] + rest[1..]
  }

  /** Splitting is undone by joining. */
  lemma {:induction false} JoinOfSplit(s: string, separator: char)
    ensures Join(Split(s, separator), separator) == s
  {
    if s != [] {
      JoinOfSplit(s[1..], separator);
      var rest := Split(s[1..], separator);
      if s[0] == separator {
        assert ([""] + rest)[1..] == rest;
      } else if |rest| == 1 {
        assert Split(s, separator) == [[s[0]] + rest[0]];
      } else {
        assert ([[s[0]] + rest[0]] + rest[1..])[1..] == rest[1..];
      }
    }
  }

  lemma {:induction false} SplitOfPiece(piece: string, separator: char)
    requires separator !in piece
    ensures Split(piece, separator) == [piece]
  {
    if piece != [] {
      SplitOfPiece(piece[1..], separator);
      assert [piece[0]] + piece[1..] == piece;
    }
  }

  lemma {:induction false} SplitAtSeparator(piece: string, separator: char, rest: string)
    requires separator !in piece
    ensures Split(piece + [separator] + rest, separator) == [piece] + Split(rest, separator)
  {
    var s := piece + [separator] + rest;
    if piece == [] {
      assert s[1..] == rest;
    } else {
      SplitAtSeparator(piece[1..], separator, rest);
      assert s[1..] == piece[1..] + [separator] + rest;
      assert [piece[0]] + piece[1..] == piece;
    }
  }

  /** Joining is undone by splitting when no piece holds the separator. */
  lemma {:induction false} SplitOfJoin(parts: seq<string>, separator: char)
    requires parts != []
    requires forall part | part in parts :: separator !in part
    ensures Split(Join(parts, separator), separator) == parts
  {
    if |parts| == 1 {
      SplitOfPiece(parts[0], separator);
    } else {
      SplitOfJoin(parts[1..], separator);
      SplitAtSeparator(parts[0], separator, Join(parts[1..], separator));
    }
  }
}
