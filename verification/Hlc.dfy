/**
 Hybrid logical clock timestamps (internal/platform/crdtx/crdtx.go:14-95): their
 total order, their printed form and its re-parse, and the per-node clock.
 */
module Hlc {
  import opened Prelude

  datatype HLC = HLC(wall: int, count: nat, node: string)

  const WRAP := 0x1_0000_0000  // Count is a uint32

  // ---------------------------------------------------------------- order

  /** Lexicographic order of strings, as Go compares them. */
  predicate StringLess(a: string, b: string)
  {
    if b == "" then false
    else if a == "" then true
    else if a[0] != b[0] then a[0] < b[0]
    else StringLess(a[1..], b[1..])
  }

  lemma {:induction false} StringLessIrreflexive(a: string)
    ensures !StringLess(a, a)
  {
    if a != "" { StringLessIrreflexive(a[1..]); }
  }

  lemma {:induction false} StringLessTransitive(a: string, b: string, c: string)
    requires StringLess(a, b) && StringLess(b, c)
    ensures StringLess(a, c)
  {
    if a != "" && a[0] == b[0] && b[0] == c[0] { StringLessTransitive(a[1..], b[1..], c[1..]); }
  }

  lemma {:induction false} StringLessTotal(a: string, b: string)
    ensures StringLess(a, b) || a == b || StringLess(b, a)
  {
    if a != "" && b != "" && a[0] == b[0] {
      StringLessTotal(a[1..], b[1..]);
      assert a == [a[0]] + a[1..] && b == [b[0]] + b[1..];
    }
  }

  /** HLC.Less: wall, then count, then node id. */
  predicate Less(h: HLC, o: HLC)
  {
    if h.wall != o.wall then h.wall < o.wall
    else if h.count != o.count then h.count < o.count
    else StringLess(h.node, o.node)
  }

  /** Less is a strict total order. */
  lemma {:induction false} LessStrictTotal(a: HLC, b: HLC, c: HLC)
    ensures !Less(a, a)
    ensures Less(a, b) && Less(b, c) ==> Less(a, c)
    ensures Less(a, b) || a == b || Less(b, a)
  {
    StringLessIrreflexive(a.node);
    if StringLess(a.node, b.node) && StringLess(b.node, c.node) { StringLessTransitive(a.node, b.node, c.node); }
    StringLessTotal(a.node, b.node);
  }

  /** Strings are ordered by the first character in which they differ, and a proper prefix comes first. */
  lemma {:induction false} StringLessAt(p: string, a: char, s: string, b: char, t: string)
    ensures StringLess(p + [a] + s, p + [b] + t) <==> a < b || (a == b && StringLess(s, t))
    ensures StringLess(p, p + [b] + t)
  {
    if p == "" {
      assert p + [a] + s == [a] + s && p + [b] + t == [b] + t;
      assert ([a] + s)[1..] == s && ([b] + t)[1..] == t;
    } else {
      assert (p + [a] + s)[1..] == p[1..] + [a] + s && (p + [b] + t)[1..] == p[1..] + [b] + t;
      StringLessAt(p[1..], a, s, b, t);
    }
  }

  /** The wall decides, then the counter, then the node. */
  lemma {:induction false} LessDecides(h: HLC, o: HLC, p: string, a: char, s: string, b: char, t: string)
    ensures h.wall < o.wall ==> Less(h, o) && !Less(o, h)
    ensures h.wall == o.wall && h.count < o.count ==> Less(h, o) && !Less(o, h)
    ensures h.wall == o.wall && h.count == o.count && h.node == p + [a] + s && o.node == p + [b] + t && a < b ==> Less(h, o)
  {
    StringLessAt(p, a, s, b, t);
  }

  // ---------------------------------------------------------------- printing

  predicate IsDigit(c: char) { '0' <= c <= '9' }

  function Digits(n: nat): (s: string)
    ensures s != "" && forall i :: 0 <= i < |s| ==> IsDigit(s[i])
  {
    if n < 10 then [('0' as int + n) as char] else Digits(n / 10) + [('0' as int + n % 10) as char]
  }

  function Value(s: string): nat
    requires forall i :: 0 <= i < |s| ==> IsDigit(s[i])
  {
    if s == "" then 0
    else
      assert IsDigit(s[|s| - 1]);
      10 * Value(s[..|s| - 1]) + (s[|s| - 1] as int - '0' as int)
  }

  lemma {:induction false} ValueOfDigits(n: nat)
    ensures Value(Digits(n)) == n
  {
    if n < 10 {
      assert Digits(n)[..0] == "";
    } else {
      ValueOfDigits(n / 10);
      assert Digits(n)[..|Digits(n)| - 1] == Digits(n / 10);
    }
  }

  function Decimal(n: int): string
  {
    if n < 0 then "-" + Digits(-n) else Digits(n)
  }

  /** HLC.String: "%d.%d.%s". */
  function Print(h: HLC): string
  {
    Decimal(h.wall) + "." + (Decimal(h.count) + "." + h.node)
  }

  // ---------------------------------------------------------------- scanning

  /** The white space of Go's fmt scanner. */
  predicate IsSpace(c: char)
  {
    var u := c as int;
    || 0x09 <= u <= 0x0d || u == 0x20 || u == 0x85 || u == 0xa0 || u == 0x1680
    || 0x2000 <= u <= 0x200a || u == 0x2028 || u == 0x2029 || u == 0x202f || u == 0x205f || u == 0x3000
  }

  /** How many leading characters of `s` are digits. */
  function DigitRun(s: string): (k: nat)
    ensures k <= |s| && forall i :: 0 <= i < k ==> IsDigit(s[i])
    ensures k == |s| || !IsDigit(s[k])
  {
    if s == "" || !IsDigit(s[0]) then 0 else 1 + DigitRun(s[1..])
  }

  /** Skips blanks; a newline is an error. */
  function SkipSpace(s: string): Option<string>
  {
    if s == "" || !IsSpace(s[0]) then Some(s) else if s[0] == '\n' then None else SkipSpace(s[1..])
  }

  /** How many leading characters of `s` are not white space. */
  function TokenRun(s: string): (k: nat)
    ensures k <= |s| && forall i :: 0 <= i < k ==> !IsSpace(s[i])
    ensures k == |s| || IsSpace(s[k])
  {
    if s == "" || IsSpace(s[0]) then 0 else 1 + TokenRun(s[1..])
  }

  datatype Scan = Scan(value: int, rest: string) | Bad

  /** The %d verb; the sign is accepted only for the signed field. */
  function ScanNumber(s: string, signed: bool): Scan
  {
    var t := SkipSpace(s);
    if t.None? || t.value == "" then Bad
    else
      var negative := signed && t.value[0] == '-';
      var u := if signed && t.value[0] in {'-', '+'} then t.value[1..] else t.value;
      var k := DigitRun(u);
      if k == 0 then Bad else Scan(if negative then 0 - Value(u[..k]) else Value(u[..k]), u[k..])
  }

  /** The %s verb: the token, or the empty string when there is none. */
  function ScanToken(s: string): string
  {
    var t := SkipSpace(s);
    if t.None? then "" else t.value[..TokenRun(t.value)]
  }

  /** fmt.Sscanf(s, "%d.%d.%s"): fields after the first failure keep their zero value. */
  function Reparse(s: string): HLC
  {
    var wall := ScanNumber(s, true);
    if wall.Bad? then HLC(0, 0, "")
    else if wall.rest == "" || wall.rest[0] != '.' then HLC(wall.value, 0, "")
    else
      var count := ScanNumber(wall.rest[1..], false);
      if count.Bad? || count.value < 0 then HLC(wall.value, 0, "")
      else if count.rest == "" || count.rest[0] != '.' then HLC(wall.value, count.value, "")
      else HLC(wall.value, count.value, ScanToken(count.rest[1..]))
  }

  lemma {:induction false} DigitRunStops(ds: string, rest: string)
    requires forall i :: 0 <= i < |ds| ==> IsDigit(ds[i])
    requires rest != "" && !IsDigit(rest[0])
    ensures DigitRun(ds + rest) == |ds|
  {
    if ds == "" {
      assert ds + rest == rest;
    } else {
      assert (ds + rest)[1..] == ds[1..] + rest && (ds + rest)[0] == ds[0];
      DigitRunStops(ds[1..], rest);
    }
  }

  /** Scanning digits that stop at a dot. */
  lemma {:induction false} ScanDigits(ds: string, rest: string, signed: bool)
    requires ds != "" && (forall i :: 0 <= i < |ds| ==> IsDigit(ds[i])) && rest != "" && rest[0] == '.'
    ensures ScanNumber(ds + rest, signed) == Scan(Value(ds), rest)
  {
    var s := ds + rest;
    assert s[0] == ds[0] && IsDigit(s[0]);
    assert SkipSpace(s) == Some(s);
    DigitRunStops(ds, rest);
    assert s[..|ds|] == ds && s[|ds|..] == rest;
  }

  lemma {:induction false} ScanNegative(ds: string, rest: string)
    requires ds != "" && (forall i :: 0 <= i < |ds| ==> IsDigit(ds[i])) && rest != "" && rest[0] == '.'
    ensures ScanNumber("-" + ds + rest, true) == Scan(0 - Value(ds), rest)
  {
    var s := "-" + ds + rest;
    assert s[0] == '-' && s[1..] == ds + rest;
    assert SkipSpace(s) == Some(s);
    DigitRunStops(ds, rest);
    assert (ds + rest)[..|ds|] == ds && (ds + rest)[|ds|..] == rest;
  }

  /** Scanning a printed number gives it back and stops at the dot. */
  lemma {:induction false} ScanDecimal(n: int, rest: string, signed: bool)
    requires (signed || n >= 0) && rest != "" && rest[0] == '.'
    ensures ScanNumber(Decimal(n) + rest, signed) == Scan(n, rest)
  {
    if n < 0 {
      ValueOfDigits(-n);
      ScanNegative(Digits(-n), rest);
    } else {
      ValueOfDigits(n);
      ScanDigits(Digits(n), rest, signed);
    }
  }

  /** What Reparse makes of a string, given how its two numbers scan. */
  lemma {:induction false} ReparseOf(s: string, wall: int, tail: string, count: nat, node: string)
    requires ScanNumber(s, true) == Scan(wall, ['.'] + tail) && ScanNumber(tail, false) == Scan(count, ['.'] + node)
    ensures Reparse(s) == HLC(wall, count, ScanToken(node))
  {
    assert (['.'] + tail)[1..] == tail && (['.'] + node)[1..] == node;
  }

  /** The two scans of a printed timestamp. */
  lemma {:induction false} PrintedScans(h: HLC) returns (tail: string)
    ensures ScanNumber(Print(h), true) == Scan(h.wall, ['.'] + tail)
    ensures ScanNumber(tail, false) == Scan(h.count, ['.'] + h.node)
  {
    tail := Decimal(h.count) + "." + h.node;
    PrintedAs(Decimal(h.wall), tail, Print(h));
    ScanDecimal(h.wall, ['.'] + tail, true);
    PrintedAs(Decimal(h.count), h.node, tail);
    ScanDecimal(h.count, ['.'] + h.node, false);
  }

  lemma {:induction false} PrintedAs(a: string, b: string, s: string)
    requires s == a + "." + b
    ensures s == a + (['.'] + b)
  {
  }

  lemma {:induction false} ReparsePrinted(h: HLC)
    ensures Reparse(Print(h)) == HLC(h.wall, h.count, ScanToken(h.node))
  {
    var tail := PrintedScans(h);
    ReparseOf(Print(h), h.wall, tail, h.count, h.node);
  }

  predicate NoSpace(s: string)
  {
    forall i :: 0 <= i < |s| ==> !IsSpace(s[i])
  }

  /** Remove's re-parse undoes String exactly for node ids without white space. */
  lemma {:induction false} ReparseIff(h: HLC)
    ensures Reparse(Print(h)) == h <==> NoSpace(h.node)
  {
    ReparsePrinted(h);
    if NoSpace(h.node) {
      var k := TokenRun(h.node);
      assert h.node[..|h.node|] == h.node;
    } else {
      assert NoSpace(ScanToken(h.node));
    }
  }

  /** Printing is injective, whatever the node ids. */
  lemma {:induction false} PrintInjective(h: HLC, k: HLC)
    requires Print(h) == Print(k)
    ensures h == k
  {
    var t := PrintedScans(h);
    var u := PrintedScans(k);
    assert (['.'] + t)[1..] == t && (['.'] + u)[1..] == u;
    assert (['.'] + h.node)[1..] == h.node && (['.'] + k.node)[1..] == k.node;
  }
}
