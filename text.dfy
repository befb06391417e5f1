/** Text helpers: the parts of Python's `str` and `bytes` behaviour the protocol relies on. */
module Text {

  /** The line terminator used by the multipart framer (`CRLF` in krpc.py). */
  const CRLF: string := "\r\n"

  predicate IsAscii(s: string) {
    forall i :: 0 <= i < |s| ==> s[i] as int < 0x80
  }

  /** UTF-8 encoding of one Unicode scalar value (Dafny 4 chars are scalar values). */
  function EncodeChar(c: char): (b: seq<bv8>)
    ensures 1 <= |b| <= 4
    ensures |b| == 1 <==> c as int < 0x80
  {
    var cp := c as int;
    if cp < 0x80 then [cp as bv8]
    else if cp < 0x800 then [(0xC0 + cp / 0x40) as bv8, (0x80 + cp % 0x40) as bv8]
    else if cp < 0x1_0000 then
      [(0xE0 + cp / 0x1000) as bv8, (0x80 + (cp / 0x40) % 0x40) as bv8, (0x80 + cp % 0x40) as bv8]
    else
      [(0xF0 + cp / 0x4_0000) as bv8, (0x80 + (cp / 0x1000) % 0x40) as bv8,
       (0x80 + (cp / 0x40) % 0x40) as bv8, (0x80 + cp % 0x40) as bv8]
  }

  /** `bytes(s, "utf8")`: at least one byte per character. */
  function Utf8(s: string): (b: seq<bv8>)
    ensures |b| >= |s|
  {
    if s == [] then [] else EncodeChar(s[0]) + Utf8(s[1..])
  }

  /** One byte per character exactly when every character is ASCII. */
  lemma {:induction false} Utf8Length(s: string)
    ensures |Utf8(s)| == |s| <==> IsAscii(s)
  {
    if s != [] {
      Utf8Length(s[1..]);
      assert IsAscii(s) <==> s[0] as int < 0x80 && IsAscii(s[1..]) by {
        if s[0] as int < 0x80 && IsAscii(s[1..]) {
          forall i | 0 <= i < |s| ensures s[i] as int < 0x80 {
            if i > 0 { assert s[i] == s[1..][i - 1]; }
          }
        }
      }
    }
  }

  lemma {:induction false} Utf8Append(s: string, t: string)
    ensures Utf8(s + t) == Utf8(s) + Utf8(t)
  {
    if s == [] {
      assert s + t == t;
    } else {
      assert (s + t)[1..] == s[1..] + t;
      Utf8Append(s[1..], t);
    }
  }

  lemma AsciiAppend(s: string, t: string)
    requires IsAscii(s) && IsAscii(t)
    ensures IsAscii(s + t)
  {
    forall i | 0 <= i < |s + t| ensures (s + t)[i] as int < 0x80 {
      if i >= |s| { assert (s + t)[i] == t[i - |s|]; }
    }
  }

  predicate StartsWith(s: string, prefix: string) {
    prefix <= s
  }

  /** `s.split(d)` for a one-character separator: never empty, one more piece than separators. */
  function Split(s: string, d: char): (r: seq<string>)
    ensures |r| >= 1
    ensures forall i :: 0 <= i < |r| ==> d !in r[i]
  {
    if s == [] then [""]
    else
      var rest := Split(s[1..], d);
      if s[0] == d then [""] + rest
      else [[s[0]] + rest[0]] + rest[1..]
  }

  /** `d.join(segs)`. */
  function Join(segs: seq<string>, d: char): string {
    if |segs| == 0 then ""
    else if |segs| == 1 then segs[0]
    else segs[0] + [d] + Join(segs[1..], d)
  }

  /** Joining the pieces of a split gives the original text back. */
  lemma {:induction false} JoinSplit(s: string, d: char)
    ensures Join(Split(s, d), d) == s
  {
    if s != [] {
      var rest := Split(s[1..], d);
      JoinSplit(s[1..], d);
      if s[0] == d {
        assert Split(s, d) == [""] + rest;
        assert ([""] + rest)[1..] == rest;
        assert s == [d] + s[1..];
      } else {
        var r := Split(s, d);
        assert r == [[s[0]] + rest[0]] + rest[1..];
        if |rest| == 1 {
          assert s[1..] == rest[0];
        } else {
          assert Join(rest, d) == rest[0] + [d] + Join(rest[1..], d);
          assert r[1..] == rest[1..];
        }
      }
    }
  }

  /** Splitting a join of separator-free segments gives the segments back. */
  lemma {:induction false} SplitJoin(segs: seq<string>, d: char)
    requires |segs| >= 1
    requires forall i :: 0 <= i < |segs| ==> d !in segs[i]
    ensures Split(Join(segs, d), d) == segs
  {
    if |segs| == 1 {
      SplitNoSeparator(segs[0], d);
    } else {
      SplitJoin(segs[1..], d);
      SplitAfterSegment(segs[0], Join(segs[1..], d), d);
      assert [segs[0]] + segs[1..] == segs;
    }
  }

  lemma {:induction false} SplitNoSeparator(s: string, d: char)
    requires d !in s
    ensures Split(s, d) == [s]
  {
    if s != [] {
      assert s[1..] == s[|[s[0]]|..];
      SplitNoSeparator(s[1..], d);
      assert [s[0]] + s[1..] == s;
    }
  }

  lemma SplitNoSeparatorIf(s: string, d: char)
    ensures d !in s ==> Split(s, d) == [s]
  {
    if d !in s { SplitNoSeparator(s, d); }
  }

  lemma {:induction false} SplitAfterSegment(a: string, b: string, d: char)
    requires d !in a
    ensures Split(a + [d] + b, d) == [a] + Split(b, d)
  {
    if a == [] {
      assert a + [d] + b == [d] + b;
      assert ([d] + b)[1..] == b;
    } else {
      assert (a + [d] + b)[1..] == a[1..] + [d] + b;
      SplitAfterSegment(a[1..], b, d);
      assert [a[0]] + a[1..] == a;
    }
  }

  /** Appending a separator and a separator-free segment adds that segment as one more piece. */
  lemma {:induction false} SplitSnoc(a: string, b: string, d: char)
    ensures d !in b ==> Split(a + [d] + b, d) == Split(a, d) + [b]
  {
    if d !in b {
      if a == [] {
        assert a + [d] + b == [d] + b;
        assert ([d] + b)[1..] == b;
        SplitNoSeparator(b, d);
      } else {
        assert (a + [d] + b)[0] == a[0];
        assert (a + [d] + b)[1..] == a[1..] + [d] + b;
        SplitSnoc(a[1..], b, d);
        var front := Split(a[1..], d);
        if a[0] != d {
          assert (front + [b])[0] == front[0];
          assert (front + [b])[1..] == front[1..] + [b];
        }
      }
    }
  }

  /** `os.path.basename` for POSIX paths: the text after the last `/`. */
  function Basename(path: string): (r: string)
    ensures '/' !in r
    ensures |r| <= |path| && r == path[|path| - |r|..]
    ensures |r| < |path| ==> path[|path| - |r| - 1] == '/'
  {
    if path == [] then ""
    else if path[|path| - 1] == '/' then ""
    else Basename(path[..|path| - 1]) + [path[|path| - 1]]
  }

  /** `str(n)` for an integer: optional minus sign and decimal digits. */
  function IntToString(n: int): (r: string)
    ensures |r| >= 1
    decreases if n < 0 then 1 - n else n
  {
    if n < 0 then "-" + IntToString(-n)
    else if n < 10 then [DigitChar(n)]
    else IntToString(n / 10) + [DigitChar(n % 10)]
  }

  function DigitChar(d: int): char
    requires 0 <= d < 10
  {
    "0123456789"[d]
  }
}
