/** Values and string helpers shared by the pages and the visualisers:
    an Option type, JavaScript's `String.prototype.includes` and `split`,
    and the classification of a URL path by signal kind. */
module Common {

  datatype Option<T> = None | Some(value: T)

  /** Looks up `key` the way a JavaScript property access does:
      a missing property reads as `undefined` (here `None`). */
  function Lookup(m: map<string, real>, key: string): (r: Option<real>)
    ensures r.Some? <==> key in m
    ensures r.Some? ==> r.value == m[key]
  {
    if key in m then Some(m[key]) else None
  }

  /** `s.includes(sub)`: `sub` occurs as a contiguous block of `s`. */
  predicate Contains(s: string, sub: string)
    decreases |s|
  {
    sub <= s || (s != [] && Contains(s[1..], sub))
  }

  /** A string that lacks one of the characters of `sub` does not
      include `sub`. */
  lemma {:induction false} MissingChar(s: string, sub: string, c: char)
    requires c in sub && c !in s
    ensures !Contains(s, sub)
    decreases |s|
  {
    var k :| 0 <= k < |sub| && sub[k] == c;
    assert k < |s| ==> s[k] != c;
    assert !(sub <= s);
    if s != [] {
      MissingChar(s[1..], sub, c);
    }
  }

  /** A block found at a known offset is included. */
  lemma {:induction false} ContainsAt(s: string, sub: string, i: nat)
    requires i + |sub| <= |s| && s[i..i + |sub|] == sub
    ensures Contains(s, sub)
    decreases i
  {
    if i == 0 {
      assert sub <= s;
    } else {
      assert s[1..][i - 1..i - 1 + |sub|] == sub;
      ContainsAt(s[1..], sub, i - 1);
    }
  }

  /** `sub` occurs in `s` as the block starting at offset `i`. */
  predicate OccursAt(s: string, sub: string, i: nat)
  {
    i + |sub| <= |s| && s[i..i + |sub|] == sub
  }

  /** `Contains` is exactly `includes`: it holds if and only if `sub`
      occurs at some offset of `s`. */
  lemma ContainsIff(s: string, sub: string)
    ensures Contains(s, sub) <==> exists i: nat :: OccursAt(s, sub, i)
  {
    if Contains(s, sub) {
      var i := Occurrence(s, sub);
    }
    if i: nat :| OccursAt(s, sub, i) {
      ContainsAt(s, sub, i);
    }
  }

  /** An offset at which an included block occurs. */
  lemma {:induction false} Occurrence(s: string, sub: string) returns (i: nat)
    requires Contains(s, sub)
    ensures OccursAt(s, sub, i)
    decreases |s|
  {
    if sub <= s {
      i := 0;
    } else {
      var j := Occurrence(s[1..], sub);
      assert s[1..][j..j + |sub|] == s[j + 1..j + 1 + |sub|];
      i := j + 1;
    }
  }

  /** `s.split(sep)` for a one-character separator: the maximal
      separator-free pieces of `s`, in order; an empty string and a
      trailing separator each contribute an empty piece. */
  function Split(s: string, sep: char): (parts: seq<string>)
    ensures |parts| >= 1
    ensures forall k :: 0 <= k < |parts| ==> sep !in parts[k]
    decreases |s|
  {
    if s == [] then [""]
    else
      var rest := Split(s[1..], sep);
      if s[0] == sep then [""] + rest
      else [[s[0]] + rest[0]] + rest[1..]
  }

  /** `parts.join(sep)`, the inverse of `Split`. */
  function Join(parts: seq<string>, sep: char): string
    requires |parts| >= 1
    decreases |parts|
  {
    if |parts| == 1 then parts[0] else parts[0] + [sep] + Join(parts[1..], sep)
  }

  /** Splitting loses nothing: joining the pieces gives the string back. */
  lemma {:induction false} JoinSplit(s: string, sep: char)
    ensures Join(Split(s, sep), sep) == s
    decreases |s|
  {
    if s != [] {
      var rest := Split(s[1..], sep);
      JoinSplit(s[1..], sep);
      if s[0] == sep {
        assert Split(s, sep)[1..] == rest;
      } else {
        var parts := Split(s, sep);
        assert parts[1..] == rest[1..];
        if |rest| == 1 {
          assert Join(parts, sep) == [s[0]] + rest[0];
        } else {
          assert Join(parts, sep) == [s[0]] + rest[0] + [sep] + Join(rest[1..], sep);
        }
      }
    }
  }

  /** The last element of `s.split(sep)`. */
  function LastPiece(s: string, sep: char): string
  {
    var parts := Split(s, sep);
    parts[|parts| - 1]
  }

  /** The last piece is the separator-free tail of `s`: all of `s` when
      `s` holds no separator, otherwise exactly what follows its last
      separator. */
  lemma {:induction false} LastPieceIsTail(s: string, sep: char)
    ensures var t := LastPiece(s, sep);
      sep !in t && |t| <= |s| && s[|s| - |t|..] == t &&
      (|Split(s, sep)| == 1 ==> t == s) &&
      (|Split(s, sep)| > 1 ==> |t| < |s| && s[|s| - |t| - 1] == sep)
    decreases |s|
  {
    if s != [] {
      LastPieceIsTail(s[1..], sep);
      var rest := Split(s[1..], sep);
      if s[0] != sep && |rest| == 1 {
        assert LastPiece(s, sep) == [s[0]] + rest[0];
      } else {
        assert LastPiece(s, sep) == LastPiece(s[1..], sep);
      }
    }
  }

  /** A string ending in the separator has an empty last piece. */
  lemma TrailingSeparator(s: string, sep: char)
    requires |s| > 0 && s[|s| - 1] == sep
    ensures LastPiece(s, sep) == ""
  {
    LastPieceIsTail(s, sep);
  }

  /** The two signal modalities the application knows. */
  datatype SignalKind = Ecg | Espirometria

  /** The substring test both pages apply to the URL path: `'ecg'` is
      tested first, then `'espirometria'`. */
  function PathKind(path: string): (k: Option<SignalKind>)
    ensures k == Some(Ecg) <==> Contains(path, "ecg")
    ensures k == Some(Espirometria) <==> !Contains(path, "ecg") && Contains(path, "espirometria")
    ensures k == None <==> !Contains(path, "ecg") && !Contains(path, "espirometria")
  {
    if Contains(path, "ecg") then Some(Ecg)
    else if Contains(path, "espirometria") then Some(Espirometria)
    else None
  }
}
