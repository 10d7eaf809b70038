/** The few functions of Go's `strings` and `unicode` packages that the
    search engine, the normalisers and the HTTP handler rely on, stated on
    `seq<char>`. */
module GoStrings {

  predicate HasPrefix(s: string, prefix: string) {
    |prefix| <= |s| && s[..|prefix|] == prefix
  }

  predicate HasSuffix(s: string, suffix: string) {
    |suffix| <= |s| && s[|s| - |suffix|..] == suffix
  }

  /** `strings.Contains`: `sub` occurs somewhere in `s` (the empty string
      occurs everywhere). */
  predicate Contains(s: string, sub: string)
    decreases |s|
  {
    HasPrefix(s, sub) || (s != [] && Contains(s[1..], sub))
  }

  /** Contains, stated as "there is a position where `sub` starts". */
  lemma {:induction false} ContainsAt(s: string, sub: string, i: nat)
    requires i + |sub| <= |s| && s[i..i + |sub|] == sub
    ensures Contains(s, sub)
    decreases i
  {
    if i > 0 {
      assert s[1..][i - 1..i - 1 + |sub|] == sub;
      ContainsAt(s[1..], sub, i - 1);
    }
  }

  /** `strings.TrimPrefix`: removes one leading `prefix` if present. */
  function TrimPrefix(s: string, prefix: string): string {
    if HasPrefix(s, prefix) then s[|prefix|..] else s
  }

  /** `strings.TrimSuffix`: removes one trailing `suffix` if present. */
  function TrimSuffix(s: string, suffix: string): string {
    if HasSuffix(s, suffix) then s[..|s| - |suffix|] else s
  }

  /** ASCII lower-casing, the model's stand-in for the case folding of
      Go's `(?i)` regular-expression flag. */
  function LowerChar(c: char): char {
    if 'A' <= c <= 'Z' then (c as int + 32) as char else c
  }

  function ToLower(s: string): string {
    seq(|s|, i requires 0 <= i < |s| => LowerChar(s[i]))
  }

  /** The number of bytes of the UTF-8 encoding of `c`. */
  function Utf8Width(c: char): nat {
    if c as int < 0x80 then 1
    else if c as int < 0x800 then 2
    else if c as int < 0x1_0000 then 3
    else 4
  }

  /** Go's `len` of a string: the length of its UTF-8 encoding in bytes,
      between one and four bytes per character. */
  function ByteLen(s: string): (n: nat)
    ensures |s| <= n <= 4 * |s|
    decreases |s|
  {
    if s == [] then 0 else Utf8Width(s[0]) + ByteLen(s[1..])
  }

  predicate IsAscii(s: string) {
    forall i :: 0 <= i < |s| ==> s[i] as int < 0x80
  }

  /** On ASCII text bytes and characters agree. */
  lemma {:induction false} AsciiByteLen(s: string)
    requires IsAscii(s)
    ensures ByteLen(s) == |s|
    decreases |s|
  {
    if s != [] {
      assert IsAscii(s[1..]) by {
        forall i | 0 <= i < |s| - 1 ensures s[1..][i] as int < 0x80 {
          assert s[1..][i] == s[i + 1];
        }
      }
      AsciiByteLen(s[1..]);
    }
  }

  /** `unicode.IsSpace`: the Latin-1 spaces and the remaining code points
      with the Unicode White_Space property. */
  predicate IsSpace(c: char) {
    c == ' ' || ('\t' <= c <= '\r') || c == '\U{0085}' || c == '\U{00A0}'
    || c == '\U{1680}' || ('\U{2000}' <= c <= '\U{200A}')
    || c == '\U{2028}' || c == '\U{2029}' || c == '\U{202F}'
    || c == '\U{205F}' || c == '\U{3000}'
  }

  predicate AllSpace(s: string) {
    forall i :: 0 <= i < |s| ==> IsSpace(s[i])
  }

  /** Drops the leading white space of `s`. */
  function TrimLeftSpace(s: string): (r: string)
    ensures |r| <= |s| && r == s[|s| - |r|..]
    ensures forall i :: 0 <= i < |s| - |r| ==> IsSpace(s[i])
    ensures r == [] || !IsSpace(r[0])
    decreases |s|
  {
    if s != [] && IsSpace(s[0]) then TrimLeftSpace(s[1..]) else s
  }

  /** Drops the trailing white space of `s`. */
  function TrimRightSpace(s: string): (r: string)
    ensures |r| <= |s| && r == s[..|r|]
    ensures forall i :: |r| <= i < |s| ==> IsSpace(s[i])
    ensures r == [] || !IsSpace(r[|r| - 1])
    decreases |s|
  {
    if s != [] && IsSpace(s[|s| - 1]) then TrimRightSpace(s[..|s| - 1]) else s
  }

  /** `strings.TrimSpace`. */
  function TrimSpace(s: string): string {
    TrimRightSpace(TrimLeftSpace(s))
  }

  /** A query trims to nothing exactly when it is made of white space. */
  lemma TrimSpaceEmpty(s: string)
    ensures TrimSpace(s) == [] <==> AllSpace(s)
  {
    var l := TrimLeftSpace(s);
    if TrimSpace(s) == [] {
      assert AllSpace(l[0..]);
      assert s == s[..|s| - |l|] + l;
    } else {
      assert !AllSpace(s) by {
        var r := TrimSpace(s);
        assert !IsSpace(r[0]) by {
          if l != [] { assert r[0] == l[0]; }
        }
        assert r[0] == s[|s| - |l|];
      }
    }
  }

  /** A non-empty run of non-space characters. */
  predicate IsWord(f: string) {
    f != [] && forall i :: 0 <= i < |f| ==> !IsSpace(f[i])
  }

  /** The length of the run of non-space characters that starts `s`. */
  function WordLength(s: string): (n: nat)
    ensures n <= |s|
    ensures forall i :: 0 <= i < n ==> !IsSpace(s[i])
    ensures n < |s| ==> IsSpace(s[n])
    decreases |s|
  {
    if s == [] || IsSpace(s[0]) then 0 else 1 + WordLength(s[1..])
  }

  /** `strings.Fields`: the maximal runs of non-space characters, in order. */
  function Fields(s: string): seq<string>
    decreases |s|
  {
    var t := TrimLeftSpace(s);
    if t == [] then []
    else
      var n := WordLength(t);
      [t[..n]] + Fields(t[n..])
  }

  /** Every field is a non-empty word without white space. */
  lemma {:induction false} FieldsWords(s: string)
    ensures forall f :: f in Fields(s) ==> IsWord(f)
    decreases |s|
  {
    var t := TrimLeftSpace(s);
    if t != [] {
      var n := WordLength(t);
      FieldsWords(t[n..]);
      assert IsWord(t[..n]);
      assert Fields(s) == [t[..n]] + Fields(t[n..]);
    }
  }

  /** There is no field at all exactly when `s` is blank. */
  lemma FieldsEmpty(s: string)
    ensures Fields(s) == [] <==> AllSpace(s)
  {
    var t := TrimLeftSpace(s);
    if t == [] {
      assert s[..|s| - |t|] == s;
    } else {
      assert Fields(s) != [];
      assert s[|s| - |t|] == t[0];
    }
  }

  /** `strings.Split(s, string(sep))` for a one-character separator. */
  function Split(s: string, sep: char): (r: seq<string>)
    ensures |r| >= 1
    decreases |s|
  {
    if s == [] then [""]
    else
      var rest := Split(s[1..], sep);
      if s[0] == sep then [""] + rest else [[s[0]] + rest[0]] + rest[1..]
  }

  /** `strings.Join(parts, string(sep))`, the inverse of Split. */
  function Join(parts: seq<string>, sep: char): string
    requires |parts| >= 1
    decreases |parts|
  {
    if |parts| == 1 then parts[0] else parts[0] + [sep] + Join(parts[1..], sep)
  }

  /** Splitting loses nothing (joining the pieces gives `s` back) and no piece
      holds the separator. */
  lemma {:induction false} SplitJoin(s: string, sep: char)
    ensures Join(Split(s, sep), sep) == s
    ensures forall p :: p in Split(s, sep) ==> sep !in p
    decreases |s|
  {
    if s != [] {
      var rest := Split(s[1..], sep);
      SplitJoin(s[1..], sep);
      if s[0] == sep {
        assert Split(s, sep)[1..] == rest;
      } else {
        var r := Split(s, sep);
        assert r[0] == [s[0]] + rest[0];
        if |rest| == 1 {
          assert Join(r, sep) == [s[0]] + rest[0];
        } else {
          assert r[1..] == rest[1..];
          assert Join(r, sep) == [s[0]] + rest[0] + [sep] + Join(rest[1..], sep);
        }
        forall p | p in r ensures sep !in p {
          if p != r[0] { assert p in rest; }
        }
      }
    }
  }

  /** The position of the first `c` in `s`. */
  function IndexOf(s: string, c: char): (i: nat)
    requires c in s
    ensures i < |s| && s[i] == c && c !in s[..i]
    decreases |s|
  {
    if s[0] == c then 0 else 1 + IndexOf(s[1..], c)
  }

  /** `strings.Replace(s, string(c), rep, 1)`: replaces the first `c` only. */
  function ReplaceFirst(s: string, c: char, rep: string): string
    decreases |s|
  {
    if s == [] then []
    else if s[0] == c then rep + s[1..]
    else [s[0]] + ReplaceFirst(s[1..], c, rep)
  }

  /** Without a `c` there is nothing to replace. */
  lemma {:induction false} ReplaceFirstAbsent(s: string, c: char, rep: string)
    requires c !in s
    ensures ReplaceFirst(s, c, rep) == s
    decreases |s|
  {
    if s != [] {
      ReplaceFirstAbsent(s[1..], c, rep);
    }
  }

  /** Only the first `c` is replaced; the text around it is kept. */
  lemma {:induction false} ReplaceFirstPresent(s: string, c: char, rep: string)
    requires c in s
    ensures ReplaceFirst(s, c, rep) == s[..IndexOf(s, c)] + rep + s[IndexOf(s, c) + 1..]
    decreases |s|
  {
    if s[0] != c {
      var tail := s[1..];
      assert c in tail;
      ReplaceFirstPresent(tail, c, rep);
      var j := IndexOf(tail, c);
      assert s[..1 + j] == [s[0]] + tail[..j];
      assert s[1 + j + 1..] == tail[j + 1..];
    }
  }
}
