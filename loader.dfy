/** The per-line logic of the LS-8 program loader.

    Each line of a program file is cut at its first `#`, trimmed of
    surrounding whitespace, skipped when nothing is left, and otherwise read
    as a base-2 literal and stored at the next free RAM address, starting
    from 0. A line that is not a base-2 literal stops loading with an error,
    and so does a literal with no free address left. */
module Loader {
  import opened PyList
  import Machine

  /** What one line of a program file contributes. */
  datatype Line = Blank | Literal(value: nat) | Malformed

  /** Why loading stopped early: a line that is not base-2 text (ValueError
      from the base-2 conversion) or a literal past the end of RAM
      (IndexError on the store). */
  datatype LoadError = BadLiteral | MemoryFull

  /** The values stored, address by address, and the error that stopped
      loading, if any. */
  datatype Scanned = Scanned(values: seq<nat>, error: Option<LoadError>)

  /** The ASCII characters that Python's `str.strip` removes. */
  predicate IsSpace(c: char)
  {
    var k := c as int;
    (9 <= k <= 13) || (28 <= k <= 32)
  }

  /** The part of a line before its first `#`. */
  function BeforeHash(line: string): string
  {
    if line == [] || line[0] == '#' then []
    else [line[0]] + BeforeHash(line[1..])
  }

  /** The line without its leading whitespace. */
  function TrimStart(s: string): string
  {
    if s != [] && IsSpace(s[0]) then TrimStart(s[1..]) else s
  }

  /** The line without its trailing whitespace. */
  function TrimEnd(s: string): string
  {
    if s != [] && IsSpace(s[|s| - 1]) then TrimEnd(s[..|s| - 1]) else s
  }

  /** Python's `s.strip()` on ASCII whitespace. */
  function Strip(s: string): (r: string)
    ensures |r| <= |s| && forall c :: c in r ==> c in s
    ensures r != [] ==> !IsSpace(r[0]) && !IsSpace(r[|r| - 1])
  {
    var t := TrimStart(s);
    TrimStartSpec(s);
    TrimEndSpec(t);
    assert forall c :: c in t ==> c in s;
    TrimEnd(t)
  }

  /** The text of a line that the loader looks at: comment removed, trimmed. */
  function Clean(line: string): (r: string)
    ensures |r| <= |line| && '#' !in r
    ensures r != [] ==> !IsSpace(r[0]) && !IsSpace(r[|r| - 1])
  {
    BeforeHashSpec(line);
    Strip(BeforeHash(line))
  }

  /** Non-empty text made only of the digits 0 and 1. */
  predicate IsBinary(s: string)
  {
    |s| > 0 && forall k :: 0 <= k < |s| ==> s[k] == '0' || s[k] == '1'
  }

  /** The number that a string of binary digits denotes, most significant
      digit first. */
  function BinaryValue(s: string): (r: nat)
    ensures r < Pow2(|s|)
  {
    if s == [] then 0
    else 2 * BinaryValue(s[..|s| - 1]) + (if s[|s| - 1] == '1' then 1 else 0)
  }

  /** The contribution of one line to the memory image. */
  function Classify(line: string): (r: Line)
    ensures r == Blank <==> Clean(line) == []
    ensures r.Literal? ==> IsBinary(Clean(line)) && r.value < Pow2(|Clean(line)|)
  {
    var text := Clean(line);
    if text == [] then Blank
    else if IsBinary(text) then Literal(BinaryValue(text))
    else Malformed
  }

  /** BeforeHash gives the longest prefix of the line without a `#`. */
  lemma {:induction false} BeforeHashSpec(line: string)
    ensures BeforeHash(line) <= line && '#' !in BeforeHash(line)
    ensures BeforeHash(line) == line || line[|BeforeHash(line)|] == '#'
  {
    if line != [] && line[0] != '#' {
      BeforeHashSpec(line[1..]);
    }
  }

  /** TrimStart removes exactly the whitespace at the start. */
  lemma {:induction false} TrimStartSpec(s: string)
    ensures var r := TrimStart(s);
      |r| <= |s| && r == s[|s| - |r|..]
      && (forall k :: 0 <= k < |s| - |r| ==> IsSpace(s[k]))
      && (r != [] ==> !IsSpace(r[0]))
  {
    if s != [] && IsSpace(s[0]) {
      var t := s[1..];
      TrimStartSpec(t);
      var r := TrimStart(t);
      assert TrimStart(s) == r;
      assert t[|t| - |r|..] == s[|s| - |r|..];
      forall k | 0 <= k < |s| - |r| ensures IsSpace(s[k]) {
        if k > 0 { assert s[k] == t[k - 1]; }
      }
    }
  }

  /** TrimEnd removes exactly the whitespace at the end. */
  lemma {:induction false} TrimEndSpec(s: string)
    ensures var r := TrimEnd(s);
      r <= s
      && (forall k :: |r| <= k < |s| ==> IsSpace(s[k]))
      && (r != [] ==> !IsSpace(r[|r| - 1]))
  {
    if s != [] && IsSpace(s[|s| - 1]) {
      var t := s[..|s| - 1];
      TrimEndSpec(t);
      var r := TrimEnd(t);
      assert TrimEnd(s) == r;
      forall k | |r| <= k < |s| ensures IsSpace(s[k]) {
        if k < |t| { assert s[k] == t[k]; }
      }
    }
  }

  /** The text the loader reads from a line holds no `#`, neither starts
      nor ends with whitespace, and is its own cleaned form. */
  lemma CleanSpec(line: string)
    ensures var c := Clean(line);
      '#' !in c
      && (c != [] ==> !IsSpace(c[0]) && !IsSpace(c[|c| - 1]))
      && Clean(c) == c
  {
    var h := BeforeHash(line);
    BeforeHashSpec(line);
    var t := TrimStart(h);
    assert '#' !in t by {
      TrimStartSpec(h);
      forall k | 0 <= k < |t| ensures t[k] != '#' {
        assert t[k] == h[|h| - |t| + k];
      }
    }
    var c := TrimEnd(t);
    TrimEndSpec(t);
    assert '#' !in c by {
      forall k | 0 <= k < |c| ensures c[k] != '#' {
        assert c[k] == t[k];
      }
    }
    assert c != [] ==> !IsSpace(c[0]) by {
      if c != [] {
        TrimStartSpec(h);
        assert c[0] == t[0];
      }
    }
    BeforeHashWithoutHash(c);
    if c != [] {
      assert TrimStart(c) == c;
      assert TrimEnd(c) == c;
    }
  }

  /** One iteration of the load loop: the effect of the next line on what
      has been loaded so far. */
  function Feed(prev: Scanned, line: string): (r: Scanned)
    requires |prev.values| <= Machine.RAM_SIZE
    ensures |r.values| <= Machine.RAM_SIZE
    ensures |r.values| <= |prev.values| + 1
  {
    if prev.error.Some? then prev
    else
      match Classify(line)
      case Blank => prev
      case Malformed => Scanned(prev.values, Some(BadLiteral))
      case Literal(n) =>
        if |prev.values| == Machine.RAM_SIZE then Scanned(prev.values, Some(MemoryFull))
        else Scanned(prev.values + [n], None)
  }

  /** The load loop over a whole file: the values stored at addresses
      0, 1, ..., in file order, and what stopped it. */
  function Scan(lines: seq<string>): (r: Scanned)
    ensures |r.values| <= Machine.RAM_SIZE
    ensures |r.values| <= |lines|
  {
    if lines == [] then Scanned([], None)
    else Feed(Scan(lines[..|lines| - 1]), lines[|lines| - 1])
  }

  /** Reference view of a program file: its non-blank lines after comment
      removal and trimming, in file order. */
  function Literals(lines: seq<string>): (r: seq<string>)
    ensures |r| <= |lines|
    ensures forall i :: 0 <= i < |r| ==> r[i] != [] && '#' !in r[i]
  {
    if lines == [] then []
    else
      var text := Clean(lines[|lines| - 1]);
      Literals(lines[..|lines| - 1]) + (if text == [] then [] else [text])
  }

  /** Loading succeeds exactly when every non-blank line is base-2 text and
      they fit in RAM; then the i-th non-blank line's value is stored at
      address i, so blank and comment-only lines take no address. */
  lemma {:induction false} ScanStoresLiterals(lines: seq<string>)
    ensures Stored(lines)
  {
    if lines != [] {
      var init, last := lines[..|lines| - 1], lines[|lines| - 1];
      ScanStoresLiterals(init);
      ScanStep(init, last);
      assert init + [last] == lines;
    }
  }

  /** The two facts of ScanStoresLiterals about one file. */
  ghost predicate Stored(lines: seq<string>)
  {
    var r := Scan(lines);
    var lits := Literals(lines);
    (r.error.None? <==> (|lits| <= Machine.RAM_SIZE && forall i :: 0 <= i < |lits| ==> IsBinary(lits[i])))
    && (r.error.None? ==> |r.values| == |lits| && forall i :: 0 <= i < |lits| ==> r.values[i] == BinaryValue(lits[i]))
  }

  lemma ScanStep(init: seq<string>, last: string)
    requires Stored(init)
    ensures Stored(init + [last])
  {
    var lines := init + [last];
    assert lines[..|lines| - 1] == init;
    var prev, lits0, text := Scan(init), Literals(init), Clean(last);
    assert Scan(lines) == Feed(prev, last);
    var lits := Literals(lines);
    if text == [] {
      assert lits == lits0;
      assert Classify(last) == Blank;
    } else {
      assert lits == lits0 + [text];
      if prev.error.Some? {
        assert Scan(lines) == prev;
        if |lits0| <= Machine.RAM_SIZE {
          var i :| 0 <= i < |lits0| && !IsBinary(lits0[i]);
          assert lits[i] == lits0[i];
        }
      } else if !IsBinary(text) {
        assert Classify(last) == Malformed;
        assert lits[|lits| - 1] == text;
      } else if |prev.values| == Machine.RAM_SIZE {
        assert Classify(last) == Literal(BinaryValue(text));
        assert |lits| > Machine.RAM_SIZE;
      } else {
        assert Classify(last) == Literal(BinaryValue(text));
        assert Scan(lines).values == prev.values + [BinaryValue(text)];
      }
    }
  }

  /** Once loading has stopped, later lines change nothing. */
  lemma {:induction false} ScanStops(lines: seq<string>, more: seq<string>)
    requires Scan(lines).error.Some?
    ensures Scan(lines + more) == Scan(lines)
  {
    if more != [] {
      var init, all := more[..|more| - 1], lines + more;
      ScanStops(lines, init);
      assert all[..|all| - 1] == lines + init;
      assert Scan(all) == Feed(Scan(lines + init), all[|all| - 1]);
    } else {
      assert lines + more == lines;
    }
  }

  /** The `#` comment of a line never affects what is loaded. */
  lemma {:induction false} CommentIgnored(code: string, comment: string)
    requires '#' !in code
    ensures BeforeHash(code + "#" + comment) == code
    ensures Classify(code + "#" + comment) == Classify(code)
  {
    if code != [] {
      assert (code + "#" + comment)[1..] == code[1..] + "#" + comment;
      CommentIgnored(code[1..], comment);
    } else {
      assert (code + "#" + comment)[0] == '#';
    }
    assert BeforeHash(code) == code by { BeforeHashWithoutHash(code); }
  }

  lemma {:induction false} BeforeHashWithoutHash(code: string)
    requires '#' !in code
    ensures BeforeHash(code) == code
  {
    if code != [] {
      BeforeHashWithoutHash(code[1..]);
    }
  }

  function Pow2(w: nat): (r: nat)
    ensures r >= 1
  {
    if w == 0 then 1 else 2 * Pow2(w - 1)
  }

  /** The w-digit base-2 text of n, as an assembler writes an instruction
      byte (w = 8). */
  function Bits(n: nat, w: nat): (r: string)
    ensures |r| == w
  {
    if w == 0 then [] else Bits(n / 2, w - 1) + [if n % 2 == 1 then '1' else '0']
  }

  /** Writing a value that fits in w digits as w binary digits and reading
      it back gives the value again. */
  lemma {:induction false} BitsRoundTrip(n: nat, w: nat)
    requires n < Pow2(w)
    ensures forall k :: 0 <= k < |Bits(n, w)| ==> Bits(n, w)[k] == '0' || Bits(n, w)[k] == '1'
    ensures BinaryValue(Bits(n, w)) == n
  {
    if w > 0 {
      BitsRoundTrip(n / 2, w - 1);
      var b := Bits(n, w);
      assert b[..|b| - 1] == Bits(n / 2, w - 1);
    }
  }

  /** A line holding the w-digit text of an instruction byte, followed by
      one space, `#` and any comment, loads as that byte. */
  lemma LineOfBitsLoads(n: nat, w: nat, comment: string)
    requires 0 < w && n < Pow2(w)
    ensures Classify(Bits(n, w) + " #" + comment) == Literal(n)
  {
    var b := Bits(n, w);
    BitsRoundTrip(n, w);
    assert '#' !in b + " " by {
      forall k | 0 <= k < |b + " "| ensures (b + " ")[k] != '#' {
        if k < |b| { assert (b + " ")[k] == b[k]; }
      }
    }
    assert b + " #" + comment == (b + " ") + "#" + comment;
    CommentIgnored(b + " ", comment);
    assert TrimStart(b + " ") == b + " " by {
      assert (b + " ")[0] == b[0];
    }
    assert TrimEnd(b + " ") == b by {
      assert (b + " ")[..|b + " "| - 1] == b;
      assert !IsSpace(b[|b| - 1]);
    }
  }
}
