/** The canonical JSON encoding shared by the ledger and the geometry artifact
    (sorted keys, no spaces, UTF-8, one final newline), written out far enough to
    prove that it is injective and that its only line break is its last byte. Each
    encoder takes the text that follows the value, so no proof re-associates. */
module Json {
  import opened Bytes

  datatype Json =
    | Num(n: nat)
    | Str(s: string)
    | Flag(b: bool)
    | Null
    | Arr(items: seq<Json>)
    | Obj(fields: seq<Field>)

  /** Keys are given in sorted order by whoever builds the object. */
  datatype Field = Field(key: string, value: Json)

  lemma SameHead<T>(a: seq<T>, r: seq<T>, b: seq<T>, q: seq<T>)
    requires a + r == b + q && |a| == |b|
    ensures a == b && r == q
  {
    assert a == (a + r)[..|a|] == (b + q)[..|b|] == b;
    assert r == (a + r)[|a|..] == (b + q)[|b|..] == q;
  }

  lemma Peel<T>(c: T, r: seq<T>, d: T, q: seq<T>)
    requires [c] + r == [d] + q
    ensures c == d && r == q
  {
    SameHead([c], r, [d], q);
  }

  // ---------------------------------------------------------------- numbers

  function Digit(n: nat): (c: char)
    requires n < 10
  {
    (n + 48) as char
  }

  predicate IsDigit(c: char) {
    '0' <= c <= '9'
  }

  function Digits(n: nat): (s: string)
    ensures |s| > 0
    ensures forall i :: 0 <= i < |s| ==> IsDigit(s[i])
  {
    if n < 10 then [Digit(n)] else Digits(n / 10) + [Digit(n % 10)]
  }

  lemma {:induction false} DigitsInjective(a: nat, b: nat)
    requires Digits(a) == Digits(b)
    ensures a == b
  {
    var s := Digits(a);
    if a >= 10 && b >= 10 {
      assert Digits(a / 10) == s[..|s| - 1] == Digits(b / 10);
      DigitsInjective(a / 10, b / 10);
    }
    assert (a % 10) as int + 48 == s[|s| - 1] as int == (b % 10) as int + 48;
  }

  /** A number ends where the digits end. */
  predicate NoDigit(r: string) {
    r == [] || !IsDigit(r[0])
  }

  lemma DigitsUnique(a: nat, b: nat, r: string, q: string)
    requires Digits(a) + r == Digits(b) + q
    requires NoDigit(r) && NoDigit(q)
    ensures a == b && r == q
  {
    var s, t := Digits(a), Digits(b);
    var x := s + r;
    assert forall i :: 0 <= i < |s| ==> IsDigit(x[i]);
    assert forall i :: 0 <= i < |t| ==> IsDigit(x[i]) by { assert x == t + q; }
    assert |s| < |x| ==> !IsDigit(x[|s|]);
    assert |t| < |x| ==> !IsDigit(x[|t|]) by { assert x == t + q; }
    SameHead(s, r, t, q);
    DigitsInjective(a, b);
  }

  // ---------------------------------------------------------------- strings

  function Hex(n: nat): (c: char)
    requires n < 16
    ensures c == "0123456789abcdef"[n]
  {
    if n < 10 then (n + 48) as char else (n + 87) as char
  }

  /** The letter after the backslash, or a space when the character needs no escape. */
  function EscapeLetter(c: char): (e: char)
    ensures e >= ' '
  {
    if c == '"' then '"'
    else if c == '\\' then '\\'
    else if c == '\n' then 'n'
    else if c == '\r' then 'r'
    else if c == '\t' then 't'
    else if c as int == 8 then 'b'
    else if c as int == 12 then 'f'
    else if c < ' ' then 'u'
    else ' '
  }

  /** `c` escaped, then `k`. */
  function EscapeChar(c: char, k: string): (e: string) {
    var l := EscapeLetter(c);
    if l == ' ' then [c] + k
    else if l != 'u' then ['\\', l] + k
    else ['\\', 'u', '0', '0', Hex(c as int / 16), Hex(c as int % 16)] + k
  }

  lemma EscapeCharUnique(a: char, b: char, r: string, q: string)
    requires EscapeChar(a, r) == EscapeChar(b, q)
    ensures a == b && r == q
  {
    var x, y := EscapeChar(a, r), EscapeChar(b, q);
    assert x[0] == y[0];
    assert (EscapeLetter(a) == ' ') == (EscapeLetter(b) == ' ');
    if EscapeLetter(a) == ' ' {
      Peel(a, r, b, q);
    } else {
      assert x[1] == EscapeLetter(a) && y[1] == EscapeLetter(b);
      if EscapeLetter(a) != 'u' {
        SameHead(['\\', EscapeLetter(a)], r, ['\\', EscapeLetter(b)], q);
      } else {
        SameHead(['\\', 'u', '0', '0', Hex(a as int / 16), Hex(a as int % 16)], r,
                 ['\\', 'u', '0', '0', Hex(b as int / 16), Hex(b as int % 16)], q);
        assert x[4] == y[4] && x[5] == y[5];
        HexInjective(a as int / 16, b as int / 16);
        HexInjective(a as int % 16, b as int % 16);
      }
    }
  }

  lemma HexInjective(a: nat, b: nat)
    requires a < 16 && b < 16 && Hex(a) == Hex(b)
    ensures a == b
  {
    assert Hex(a) as int == Hex(b) as int;
  }

  /** The characters of `s` escaped, the closing quote, then `k`. */
  function Escape(s: string, k: string): (e: string)
    ensures |e| > 0
  {
    if s == [] then ['"'] + k else EscapeChar(s[0], Escape(s[1..], k))
  }

  lemma {:induction false} EscapeUnique(s: string, t: string, r: string, q: string)
    requires Escape(s, r) == Escape(t, q)
    ensures s == t && r == q
  {
    if s == [] || t == [] {
      assert Escape(s, r)[0] == Escape(t, q)[0];
      assert s == [] && t == [];
      Peel('"', r, '"', q);
    } else {
      EscapeCharUnique(s[0], t[0], Escape(s[1..], r), Escape(t[1..], q));
      EscapeUnique(s[1..], t[1..], r, q);
      assert s == [s[0]] + s[1..] && t == [t[0]] + t[1..];
    }
  }

  // ---------------------------------------------------------------- values

  /** What the first character of an encoding says about the value. */
  function Tag(c: char): nat {
    if IsDigit(c) then 0 else if c == '"' then 1 else if c == 't' || c == 'f' then 2
    else if c == '[' then 3 else if c == '{' then 4 else if c == 'n' then 5 else 6
  }

  function Kind(j: Json): (k: nat)
    ensures k < 6
  {
    match j
    case Num(_) => 0
    case Str(_) => 1
    case Flag(_) => 2
    case Null => 5
    case Arr(_) => 3
    case Obj(_) => 4
  }

  /** `j` encoded, then `k`. */
  function Dump(j: Json, k: string): (s: string)
    ensures |s| > 0 && Tag(s[0]) == Kind(j)
    decreases j, 1
  {
    match j
    case Num(n) => assert IsDigit(Digits(n)[0]); Digits(n) + k
    case Str(s) => ['"'] + Escape(s, k)
    case Flag(b) => (if b then "true" else "false") + k
    case Null => "null" + k
    case Arr(items) => ['['] + Items(items, k)
    case Obj(fields) => ['{'] + Members(fields, k)
  }

  /** An array after its opening bracket, then `k`. */
  function Items(items: seq<Json>, k: string): (s: string)
    ensures |s| > 0 && (items != [] ==> s[0] != ']')
    decreases items, 0
  {
    if items == [] then [']'] + k
    else if |items| == 1 then Dump(items[0], [']'] + k)
    else Dump(items[0], [','] + Items(items[1..], k))
  }

  /** An object after its opening brace, then `k`. */
  function Members(fields: seq<Field>, k: string): (s: string)
    ensures |s| > 0 && s[0] == if fields == [] then '}' else '"'
    decreases fields, 0
  {
    if fields == [] then ['}'] + k
    else
      var rest := if |fields| == 1 then ['}'] + k else [','] + Members(fields[1..], k);
      ['"'] + Escape(fields[0].key, [':'] + Dump(fields[0].value, rest))
  }

  /** Two values whose encodings start the same text are the same value: the
      encoding is uniquely readable, which is stronger than injective. */
  lemma {:induction false} DumpUnique(a: Json, b: Json, r: string, q: string)
    requires Dump(a, r) == Dump(b, q)
    requires NoDigit(r) && NoDigit(q)
    ensures a == b && r == q
    decreases a, 1
  {
    assert Kind(a) == Kind(b);
    match a
    case Num(n) => DigitsUnique(n, b.n, r, q);
    case Str(s) =>
      Peel('"', Escape(s, r), '"', Escape(b.s, q));
      EscapeUnique(s, b.s, r, q);
    case Flag(f) =>
      assert Dump(a, r)[0] == Dump(b, q)[0];
      SameHead(if f then "true" else "false", r, if b.b then "true" else "false", q);
    case Null => SameHead("null", r, "null", q);
    case Arr(items) =>
      Peel('[', Items(items, r), '[', Items(b.items, q));
      ItemsUnique(items, b.items, r, q);
    case Obj(fields) =>
      Peel('{', Members(fields, r), '{', Members(b.fields, q));
      MembersUnique(fields, b.fields, r, q);
  }

  lemma {:induction false} ItemsUnique(a: seq<Json>, b: seq<Json>, r: string, q: string)
    requires Items(a, r) == Items(b, q)
    ensures a == b && r == q
    decreases a, 0
  {
    hide Dump;
    if a == [] || b == [] {
      Peel(']', r, ']', q);
    } else {
      var x := if |a| == 1 then [']'] + r else [','] + Items(a[1..], r);
      var y := if |b| == 1 then [']'] + q else [','] + Items(b[1..], q);
      DumpUnique(a[0], b[0], x, y);
      assert x[0] == y[0];
      if |a| == 1 {
        Peel(']', r, ']', q);
      } else {
        Peel(',', Items(a[1..], r), ',', Items(b[1..], q));
        ItemsUnique(a[1..], b[1..], r, q);
      }
      assert a == [a[0]] + a[1..] && b == [b[0]] + b[1..];
    }
  }

  lemma {:induction false} MembersUnique(a: seq<Field>, b: seq<Field>, r: string, q: string)
    requires Members(a, r) == Members(b, q)
    ensures a == b && r == q
    decreases a, 0
  {
    if a == [] || b == [] {
      Peel('}', r, '}', q);
    } else {
      var x := if |a| == 1 then ['}'] + r else [','] + Members(a[1..], r);
      var y := if |b| == 1 then ['}'] + q else [','] + Members(b[1..], q);
      var v, w := [':'] + Dump(a[0].value, x), [':'] + Dump(b[0].value, y);
      Peel('"', Escape(a[0].key, v), '"', Escape(b[0].key, w));
      EscapeUnique(a[0].key, b[0].key, v, w);
      Peel(':', Dump(a[0].value, x), ':', Dump(b[0].value, y));
      DumpUnique(a[0].value, b[0].value, x, y);
      assert x[0] == y[0];
      if |a| == 1 {
        Peel('}', r, '}', q);
      } else {
        Peel(',', Members(a[1..], r), ',', Members(b[1..], q));
        MembersUnique(a[1..], b[1..], r, q);
      }
      assert a == [a[0]] + a[1..] && b == [b[0]] + b[1..];
    }
  }

  // ---------------------------------------------------------------- no line breaks

  /** No control character, so neither a newline nor a return. */
  predicate Plain(s: string) {
    forall i :: 0 <= i < |s| ==> s[i] >= ' '
  }

  lemma {:induction false} EscapePlain(s: string, k: string)
    requires Plain(k)
    ensures Plain(Escape(s, k))
  {
    if s != [] { EscapePlain(s[1..], k); }
  }

  lemma {:induction false} DumpPlain(j: Json, k: string)
    requires Plain(k)
    ensures Plain(Dump(j, k))
    decreases j, 1
  {
    match j
    case Num(n) => assert forall i :: 0 <= i < |Digits(n)| ==> IsDigit(Digits(n)[i]);
    case Str(s) => EscapePlain(s, k);
    case Flag(_) =>
    case Null =>
    case Arr(items) => ItemsPlain(items, k);
    case Obj(fields) => MembersPlain(fields, k);
  }

  lemma {:induction false} ItemsPlain(items: seq<Json>, k: string)
    requires Plain(k)
    ensures Plain(Items(items, k))
    decreases items, 0
  {
    if |items| == 1 {
      DumpPlain(items[0], [']'] + k);
    } else if |items| > 1 {
      ItemsPlain(items[1..], k);
      DumpPlain(items[0], [','] + Items(items[1..], k));
    }
  }

  lemma {:induction false} MembersPlain(fields: seq<Field>, k: string)
    requires Plain(k)
    ensures Plain(Members(fields, k))
    decreases fields, 0
  {
    if fields != [] {
      if |fields| > 1 { MembersPlain(fields[1..], k); }
      var rest := if |fields| == 1 then ['}'] + k else [','] + Members(fields[1..], k);
      DumpPlain(fields[0].value, rest);
      EscapePlain(fields[0].key, [':'] + Dump(fields[0].value, rest));
    }
  }

  /** What follows a value does not change its encoding. */
  lemma {:induction false} EscapeAppend(s: string, k: string, m: string)
    ensures Escape(s, k + m) == Escape(s, k) + m
  {
    if s == [] {
      assert ['"'] + (k + m) == (['"'] + k) + m;
    } else {
      EscapeAppend(s[1..], k, m);
      EscapeCharAppend(s[0], Escape(s[1..], k), m);
    }
  }

  lemma EscapeCharAppend(c: char, k: string, m: string)
    ensures EscapeChar(c, k + m) == EscapeChar(c, k) + m
  {
  }

  lemma {:induction false} DumpAppend(j: Json, k: string, m: string)
    ensures Dump(j, k + m) == Dump(j, k) + m
    decreases j, 1
  {
    match j
    case Num(n) => assert Digits(n) + (k + m) == (Digits(n) + k) + m;
    case Str(s) =>
      EscapeAppend(s, k, m);
      assert ['"'] + (Escape(s, k) + m) == (['"'] + Escape(s, k)) + m;
    case Flag(b) =>
      var t := if b then "true" else "false";
      assert t + (k + m) == (t + k) + m;
    case Null => assert "null" + (k + m) == ("null" + k) + m;
    case Arr(items) =>
      ItemsAppend(items, k, m);
      assert ['['] + (Items(items, k) + m) == (['['] + Items(items, k)) + m;
    case Obj(fields) =>
      MembersAppend(fields, k, m);
      assert ['{'] + (Members(fields, k) + m) == (['{'] + Members(fields, k)) + m;
  }

  lemma {:induction false} ItemsAppend(items: seq<Json>, k: string, m: string)
    ensures Items(items, k + m) == Items(items, k) + m
    decreases items, 0
  {
    assert [']'] + (k + m) == ([']'] + k) + m;
    if |items| == 1 {
      DumpAppend(items[0], [']'] + k, m);
    } else if |items| > 1 {
      ItemsAppend(items[1..], k, m);
      var i := Items(items[1..], k);
      assert [','] + (i + m) == ([','] + i) + m;
      DumpAppend(items[0], [','] + i, m);
    }
  }

  lemma {:induction false} MembersAppend(fields: seq<Field>, k: string, m: string)
    ensures Members(fields, k + m) == Members(fields, k) + m
    decreases fields, 0
  {
    assert ['}'] + (k + m) == (['}'] + k) + m;
    if fields != [] {
      var rest := if |fields| == 1 then ['}'] + k else [','] + Members(fields[1..], k);
      if |fields| > 1 {
        MembersAppend(fields[1..], k, m);
        assert [','] + (Members(fields[1..], k) + m) == rest + m;
      }
      DumpAppend(fields[0].value, rest, m);
      var d := Dump(fields[0].value, rest);
      assert [':'] + (d + m) == ([':'] + d) + m;
      EscapeAppend(fields[0].key, [':'] + d, m);
      var e := Escape(fields[0].key, [':'] + d);
      assert ['"'] + (e + m) == (['"'] + e) + m;
    }
  }

  // ---------------------------------------------------------------- UTF-8

  function Utf8Char(c: char): (b: seq<byte>)
    ensures 1 <= |b| <= 4
  {
    var n := c as int;
    if n < 0x80 then [n]
    else if n < 0x800 then [0xC0 + n / 64, 0x80 + n % 64]
    else if n < 0x10000 then [0xE0 + n / 64 / 64, 0x80 + n / 64 % 64, 0x80 + n % 64]
    else [0xF0 + n / 64 / 64 / 64, 0x80 + n / 64 / 64 % 64, 0x80 + n / 64 % 64, 0x80 + n % 64]
  }

  /** The scalar value a well-formed sequence stands for. */
  function Utf8Value(b: seq<int>): int {
    if |b| == 1 then b[0]
    else if |b| == 2 then (b[0] - 0xC0) * 64 + (b[1] - 0x80)
    else if |b| == 3 then ((b[0] - 0xE0) * 64 + (b[1] - 0x80)) * 64 + (b[2] - 0x80)
    else if |b| == 4 then (((b[0] - 0xF0) * 64 + (b[1] - 0x80)) * 64 + (b[2] - 0x80)) * 64 + (b[3] - 0x80)
    else -1
  }

  lemma Sextets(n: nat)
    ensures n == n / 64 * 64 + n % 64
  {
  }

  lemma Utf8RoundTrip(c: char)
    ensures Utf8Value(Utf8Char(c)) == c as int
  {
    Sextets(c as int);
    Sextets(c as int / 64);
    Sextets(c as int / 64 / 64);
  }

  lemma Utf8CharInjective(a: char, b: char)
    requires Utf8Char(a) == Utf8Char(b)
    ensures a == b
  {
    Utf8RoundTrip(a);
    Utf8RoundTrip(b);
  }

  /** The lead byte fixes the length. */
  lemma Utf8CharLength(a: char, b: char)
    requires Utf8Char(a)[0] == Utf8Char(b)[0]
    ensures |Utf8Char(a)| == |Utf8Char(b)|
  {
  }

  function Utf8(s: string): (b: seq<byte>)
    ensures |s| <= |b| <= 4 * |s|
  {
    if s == [] then [] else Utf8Char(s[0]) + Utf8(s[1..])
  }

  lemma {:induction false} Utf8Injective(s: string, t: string)
    requires Utf8(s) == Utf8(t)
    ensures s == t
  {
    if s != [] && t != [] {
      assert Utf8(s)[0] == Utf8Char(s[0])[0] && Utf8(t)[0] == Utf8Char(t[0])[0];
      Utf8CharLength(s[0], t[0]);
      SameHead(Utf8Char(s[0]), Utf8(s[1..]), Utf8Char(t[0]), Utf8(t[1..]));
      Utf8CharInjective(s[0], t[0]);
      Utf8Injective(s[1..], t[1..]);
      assert s == [s[0]] + s[1..] && t == [t[0]] + t[1..];
    }
  }

  lemma {:induction false} Utf8Append(s: string, t: string)
    ensures Utf8(s + t) == Utf8(s) + Utf8(t)
  {
    if s == [] {
      assert s + t == t;
    } else {
      assert (s + t)[1..] == s[1..] + t;
      Utf8Append(s[1..], t);
    }
  }

  lemma {:induction false} Utf8NoBreak(s: string)
    requires Plain(s)
    ensures NL !in Utf8(s) && CR !in Utf8(s)
  {
    if s != [] {
      assert s[0] >= ' ';
      Utf8NoBreak(s[1..]);
    }
  }

  // ---------------------------------------------------------------- lines

  /** `_canonical_json_line` and `_encode_entry`: the value, then one newline. */
  function CanonicalLine(j: Json): (b: seq<byte>) {
    Utf8(Dump(j, "\n"))
  }

  lemma CanonicalLineInjective(a: Json, b: Json)
    requires CanonicalLine(a) == CanonicalLine(b)
    ensures a == b
  {
    Utf8Injective(Dump(a, "\n"), Dump(b, "\n"));
    DumpUnique(a, b, "\n", "\n");
  }

  /** One line exactly: the only newline is the last byte, and there is no return. */
  lemma CanonicalLineShape(j: Json)
    ensures |CanonicalLine(j)| >= 2
    ensures CanonicalLine(j)[|CanonicalLine(j)| - 1] == NL
    ensures NL !in CanonicalLine(j)[..|CanonicalLine(j)| - 1]
    ensures CR !in CanonicalLine(j)
  {
    var s := Dump(j, "");
    DumpAppend(j, "", "\n");
    assert "" + "\n" == "\n";
    DumpPlain(j, "");
    Utf8Append(s, "\n");
    Utf8NoBreak(s);
    assert Utf8("\n") == [NL] by { assert Utf8Char('\n') == [NL]; }
    assert CanonicalLine(j) == Utf8(s) + [NL];
    assert CanonicalLine(j)[..|CanonicalLine(j)| - 1] == Utf8(s);
  }

  // ---------------------------------------------------------------- how long it can get

  /** A bound on the bytes of an encoding: six for each character of a string, which is
      the longest escape, and the punctuation. */
  function Bound(j: Json): nat
    decreases j, 1
  {
    match j
    case Num(n) => |Digits(n)|
    case Str(s) => 2 + 6 * |s|
    case Flag(_) => 5
    case Null => 4
    case Arr(items) => 2 + ItemsBound(items)
    case Obj(fields) => 2 + MembersBound(fields)
  }

  function ItemsBound(items: seq<Json>): nat
    decreases items, 0
  {
    if items == [] then 0 else Bound(items[0]) + 1 + ItemsBound(items[1..])
  }

  function MembersBound(fields: seq<Field>): nat
    decreases fields, 0
  {
    if fields == [] then 0
    else 4 + 6 * |fields[0].key| + Bound(fields[0].value) + MembersBound(fields[1..])
  }

  lemma ItemsBoundCons(items: seq<Json>)
    requires items != []
    ensures ItemsBound(items) == Bound(items[0]) + 1 + ItemsBound(items[1..])
  {
  }

  lemma MembersBoundCons(f: Field, rest: seq<Field>)
    ensures MembersBound([f] + rest) == 4 + 6 * |f.key| + Bound(f.value) + MembersBound(rest)
  {
    assert ([f] + rest)[1..] == rest;
  }

  lemma Utf8One(c: char, k: string)
    requires c as int < 0x80
    ensures |Utf8([c] + k)| == 1 + |Utf8(k)|
  {
    assert ([c] + k)[1..] == k;
  }

  lemma {:induction false} Utf8Ascii(s: string, k: string)
    requires forall i :: 0 <= i < |s| ==> s[i] as int < 0x80
    ensures |Utf8(s + k)| == |s| + |Utf8(k)|
  {
    if s == [] {
      assert s + k == k;
    } else {
      Utf8Ascii(s[1..], k);
      assert s + k == [s[0]] + (s[1..] + k);
      Utf8One(s[0], s[1..] + k);
    }
  }

  lemma EscapeCharBound(c: char, k: string)
    ensures |Utf8(EscapeChar(c, k))| <= 6 + |Utf8(k)|
  {
    var l := EscapeLetter(c);
    if l == ' ' {
      assert ([c] + k)[1..] == k;
    } else if l != 'u' {
      Utf8Ascii(['\\', l], k);
    } else {
      Utf8Ascii(['\\', 'u', '0', '0', Hex(c as int / 16), Hex(c as int % 16)], k);
    }
  }

  lemma {:induction false} EscapeBound(s: string, k: string)
    ensures |Utf8(Escape(s, k))| <= 6 * |s| + 1 + |Utf8(k)|
  {
    if s == [] {
      Utf8One('"', k);
    } else {
      EscapeBound(s[1..], k);
      EscapeCharBound(s[0], Escape(s[1..], k));
    }
  }

  lemma {:induction false} DumpBound(j: Json, k: string)
    ensures |Utf8(Dump(j, k))| <= Bound(j) + |Utf8(k)|
    decreases j, 1
  {
    match j
    case Num(n) => Utf8Ascii(Digits(n), k);
    case Str(s) =>
      EscapeBound(s, k);
      Utf8One('"', Escape(s, k));
    case Flag(b) => Utf8Ascii(if b then "true" else "false", k);
    case Null => Utf8Ascii("null", k);
    case Arr(items) =>
      ItemsLength(items, k);
      Utf8One('[', Items(items, k));
    case Obj(fields) =>
      MembersLength(fields, k);
      Utf8One('{', Members(fields, k));
  }

  lemma {:induction false} ItemsLength(items: seq<Json>, k: string)
    ensures |Utf8(Items(items, k))| <= ItemsBound(items) + 1 + |Utf8(k)|
    decreases items, 0
  {
    Utf8One(']', k);
    if |items| == 1 {
      DumpBound(items[0], [']'] + k);
    } else if |items| > 1 {
      ItemsLength(items[1..], k);
      var rest := Items(items[1..], k);
      Utf8One(',', rest);
      DumpBound(items[0], [','] + rest);
    }
  }

  lemma {:induction false} MembersLength(fields: seq<Field>, k: string)
    ensures |Utf8(Members(fields, k))| <= MembersBound(fields) + 1 + |Utf8(k)|
    decreases fields, 0
  {
    Utf8One('}', k);
    if fields != [] {
      if |fields| > 1 {
        MembersLength(fields[1..], k);
        Utf8One(',', Members(fields[1..], k));
      }
      var rest := if |fields| == 1 then ['}'] + k else [','] + Members(fields[1..], k);
      var value := Dump(fields[0].value, rest);
      DumpBound(fields[0].value, rest);
      Utf8One(':', value);
      EscapeBound(fields[0].key, [':'] + value);
      Utf8One('"', Escape(fields[0].key, [':'] + value));
    }
  }

  // ---------------------------------------------------------------- how long it is

  /** The bytes of a string with its quotes. */
  function TextBytes(s: string): (n: nat)
    ensures 2 <= n <= 2 + 6 * |s|
  {
    EscapeBound(s, "");
    EscapeLeast(s);
    1 + |Utf8(Escape(s, ""))|
  }

  lemma EscapeLeast(s: string)
    ensures |Escape(s, "")| >= 1
  {
  }

  /** The bytes of an encoding, counted without writing it. */
  function Size(j: Json): nat
    decreases j, 1
  {
    match j
    case Num(n) => |Digits(n)|
    case Str(s) => TextBytes(s)
    case Flag(b) => if b then 4 else 5
    case Null => 4
    case Arr(items) => if items == [] then 2 else 1 + ItemsSize(items)
    case Obj(fields) => if fields == [] then 2 else 1 + MembersSize(fields)
  }

  /** Each with the comma or bracket after it. */
  function ItemsSize(items: seq<Json>): nat
    decreases items, 0
  {
    if items == [] then 0 else Size(items[0]) + 1 + ItemsSize(items[1..])
  }

  function MembersSize(fields: seq<Field>): nat
    decreases fields, 0
  {
    if fields == [] then 0 else TextBytes(fields[0].key) + 1 + Size(fields[0].value) + 1 + MembersSize(fields[1..])
  }

  lemma MembersSizeCons(f: Field, rest: seq<Field>)
    ensures MembersSize([f] + rest) == TextBytes(f.key) + 1 + Size(f.value) + 1 + MembersSize(rest)
  {
    assert ([f] + rest)[1..] == rest;
  }

  lemma EscapeSize(s: string, k: string)
    ensures 1 + |Utf8(Escape(s, k))| == TextBytes(s) + |Utf8(k)|
  {
    EscapeAppend(s, "", k);
    assert "" + k == k;
    Utf8Append(Escape(s, ""), k);
  }

  lemma {:induction false} DumpSize(j: Json, k: string)
    ensures |Utf8(Dump(j, k))| == Size(j) + |Utf8(k)|
    decreases j, 1
  {
    match j
    case Num(n) => Utf8Ascii(Digits(n), k);
    case Str(s) =>
      EscapeSize(s, k);
      Utf8One('"', Escape(s, k));
    case Flag(b) => Utf8Ascii(if b then "true" else "false", k);
    case Null => Utf8Ascii("null", k);
    case Arr(items) =>
      ItemsSizeIs(items, k);
      Utf8One('[', Items(items, k));
    case Obj(fields) =>
      MembersSizeIs(fields, k);
      Utf8One('{', Members(fields, k));
  }

  lemma {:induction false} ItemsSizeIs(items: seq<Json>, k: string)
    ensures |Utf8(Items(items, k))| == (if items == [] then 1 else ItemsSize(items)) + |Utf8(k)|
    decreases items, 0
  {
    Utf8One(']', k);
    if |items| == 1 {
      DumpSize(items[0], [']'] + k);
    } else if |items| > 1 {
      ItemsSizeIs(items[1..], k);
      var rest := Items(items[1..], k);
      Utf8One(',', rest);
      DumpSize(items[0], [','] + rest);
    }
  }

  lemma {:induction false} MembersSizeIs(fields: seq<Field>, k: string)
    ensures |Utf8(Members(fields, k))| == (if fields == [] then 1 else MembersSize(fields)) + |Utf8(k)|
    decreases fields, 0
  {
    Utf8One('}', k);
    if fields != [] {
      if |fields| > 1 {
        MembersSizeIs(fields[1..], k);
        Utf8One(',', Members(fields[1..], k));
      }
      var rest := if |fields| == 1 then ['}'] + k else [','] + Members(fields[1..], k);
      var value := Dump(fields[0].value, rest);
      DumpSize(fields[0].value, rest);
      Utf8One(':', value);
      EscapeSize(fields[0].key, [':'] + value);
      Utf8One('"', Escape(fields[0].key, [':'] + value));
    }
  }

  /** The length of a line, counted without writing it. */
  lemma LineSize(j: Json)
    ensures |CanonicalLine(j)| == Size(j) + 1
  {
    DumpSize(j, "\n");
    Utf8One('\n', "");
    assert ['\n'] + "" == "\n";
  }

  /** No character that JSON escapes, and no byte beyond ASCII. */
  predicate NeedsNoEscape(s: string) {
    forall i :: 0 <= i < |s| ==> 32 <= s[i] as int < 127 && s[i] != '"' && s[i] != '\\'
  }

  lemma {:induction false} PlainSize(s: string)
    requires NeedsNoEscape(s)
    ensures TextBytes(s) == |s| + 2
  {
    if s == [] {
      Utf8One('"', "");
      assert ['"'] + "" == "\"";
    } else {
      PlainSize(s[1..]);
      assert EscapeLetter(s[0]) == ' ';
      Utf8One(s[0], Escape(s[1..], ""));
    }
  }

  lemma CanonicalLineBound(j: Json)
    ensures |CanonicalLine(j)| <= Bound(j) + 1
  {
    DumpBound(j, "\n");
    Utf8One('\n', "");
    assert ['\n'] + "" == "\n";
  }
}
