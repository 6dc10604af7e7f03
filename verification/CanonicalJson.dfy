/** Canonical protocol JSON: no whitespace, sorted keys, plain decimal integers, minimal
    escaping (a profile of RFC 8785, sections 3.2.2.2 and 3.2.3).  Strings are sequences of
    Unicode scalar values. */
module CanonicalJson {
  import opened StringOrder

  datatype Json =
    | Null
    | Bool(b: bool)
    | Int(n: int)
    | Str(s: string)
    | Arr(items: seq<Json>)
    | Obj(members: map<string, Json>)

  // ----- integers -----

  predicate IsDigit(c: char) { '0' <= c <= '9' }

  function Digit(n: nat): (c: char)
    requires n < 10
    ensures IsDigit(c) && c as int == '0' as int + n
  {
    ('0' as int + n) as char
  }

  function Digits(n: nat): (r: string)
    ensures r != "" && forall i :: 0 <= i < |r| ==> IsDigit(r[i])
    ensures n > 0 ==> r[0] != '0'
    ensures n == 0 ==> r == "0"
  {
    if n < 10 then [Digit(n)] else Digits(n / 10) + [Digit(n % 10)]
  }

  function Decimal(n: int): string {
    if n < 0 then "-" + Digits(-n) else Digits(n)
  }

  // ----- strings -----

  const HEX := "0123456789abcdef"

  /** One character as it is printed inside quotes. */
  function Escape(c: char): string {
    if c == '\"' then "\\\""
    else if c == '\\' then "\\\\"
    else if c == '\n' then "\\n"
    else if c == '\r' then "\\r"
    else if c == '\t' then "\\t"
    else if c as int < 0x20 then "\\u00" + [HEX[c as int / 16], HEX[c as int % 16]]
    else if c == '\U{2028}' then "\\u2028"
    else if c == '\U{2029}' then "\\u2029"
    else [c]
  }

  function Escaped(s: string): string {
    if s == "" then "" else Escape(s[0]) + Escaped(s[1..])
  }

  function Quote(s: string): string {
    "\"" + Escaped(s) + "\""
  }

  // ----- values -----

  function Canonical(v: Json): string
    decreases v, 1
  {
    match v
    case Null => "null"
    case Bool(b) => if b then "true" else "false"
    case Int(n) => Decimal(n)
    case Str(s) => Quote(s)
    case Arr(items) => "[" + Elements(items) + "]"
    case Obj(m) => "{" + Members(v, Listing(m.Keys)) + "}"
  }

  function Elements(items: seq<Json>): string
    decreases items, 0
  {
    if items == [] then ""
    else if |items| == 1 then Canonical(items[0])
    else Canonical(items[0]) + "," + Elements(items[1..])
  }

  function Members(v: Json, keys: seq<string>): string
    requires v.Obj? && forall k :: k in keys ==> k in v.members
    decreases v, 0, |keys|
  {
    if keys == [] then ""
    else if |keys| == 1 then Member(v, keys[0])
    else Member(v, keys[0]) + "," + Members(v, keys[1..])
  }

  function Member(v: Json, key: string): string
    requires v.Obj? && key in v.members
    decreases v, 0, 0
  {
    Quote(key) + ":" + Canonical(v.members[key])
  }

  // ----- reading back: integers -----

  predicate DigitFirst(s: string) { s != "" && IsDigit(s[0]) }

  predicate AllDigits(s: string) { forall i :: 0 <= i < |s| ==> IsDigit(s[i]) }

  function ValueOf(s: string): nat
    requires AllDigits(s)
  {
    if s == "" then 0 else 10 * ValueOf(s[..|s| - 1]) + (s[|s| - 1] as int - '0' as int)
  }

  lemma {:induction false} DigitsValue(n: nat)
    ensures ValueOf(Digits(n)) == n
  {
    if n < 10 {
      assert Digits(n)[..0] == "";
    } else {
      DigitsValue(n / 10);
      assert Digits(n)[..|Digits(n)| - 1] == Digits(n / 10);
    }
  }

  /** How many digits a text starts with. */
  function RunLength(s: string): nat {
    if DigitFirst(s) then 1 + RunLength(s[1..]) else 0
  }

  lemma {:induction false} RunLengthOf(a: string, r: string)
    requires AllDigits(a) && !DigitFirst(r)
    ensures RunLength(a + r) == |a|
  {
    if a == "" {
      assert a + r == r;
    } else {
      assert (a + r)[1..] == a[1..] + r;
      RunLengthOf(a[1..], r);
    }
  }

  lemma SplitAt(a: string, b: string, r: string, q: string)
    requires a + r == b + q && |a| == |b|
    ensures a == b && r == q
  {
    assert a == (a + r)[..|a|] && b == (b + q)[..|b|];
    assert r == (a + r)[|a|..] && q == (b + q)[|b|..];
  }

  lemma DigitsUnique(n: nat, m: nat, r: string, q: string)
    requires Digits(n) + r == Digits(m) + q
    requires !DigitFirst(r) && !DigitFirst(q)
    ensures n == m && r == q
  {
    RunLengthOf(Digits(n), r);
    RunLengthOf(Digits(m), q);
    SplitAt(Digits(n), Digits(m), r, q);
    DigitsValue(n);
    DigitsValue(m);
  }

  lemma DecimalHead(n: int, r: string)
    ensures (Decimal(n) + r)[0] == '-' <==> n < 0
    ensures n < 0 ==> (Decimal(n) + r)[1..] == Digits(-n) + r
  {
    if n < 0 {
      assert Decimal(n) + r == "-" + (Digits(-n) + r);
    }
  }

  lemma DecimalUnique(n: int, m: int, r: string, q: string)
    requires Decimal(n) + r == Decimal(m) + q
    requires !DigitFirst(r) && !DigitFirst(q)
    ensures n == m && r == q
  {
    DecimalHead(n, r);
    DecimalHead(m, q);
    if n < 0 {
      DigitsUnique(-n, -m, r, q);
    } else {
      DigitsUnique(n, m, r, q);
    }
  }

  // ----- reading back: strings -----

  lemma EscapeHead(c: char)
    ensures Escape(c) != "" && Escape(c)[0] != '\"'
    ensures Escape(c)[0] == '\\' ==> |Escape(c)| == 2 || |Escape(c)| == 6
    ensures Escape(c)[0] != '\\' ==> Escape(c) == [c]
    ensures |Escape(c)| == 6 <==> |Escape(c)| > 1 && Escape(c)[1] == 'u'
  {
  }

  lemma HexInjective(c: char, d: char)
    requires c as int < 0x20 && d as int < 0x20
    requires HEX[c as int / 16] == HEX[d as int / 16] && HEX[c as int % 16] == HEX[d as int % 16]
    ensures c == d
  {
    assert c as int == 16 * (c as int / 16) + c as int % 16;
    assert d as int == 16 * (d as int / 16) + d as int % 16;
  }

  lemma EscapeInjective(c: char, d: char)
    requires Escape(c) == Escape(d)
    ensures c == d
  {
    if |Escape(c)| == 6 {
      assert Escape(c)[2] == Escape(d)[2];
      if Escape(c)[2] == '0' {
        assert Escape(c)[4] == HEX[c as int / 16] && Escape(d)[4] == HEX[d as int / 16];
        assert Escape(c)[5] == HEX[c as int % 16] && Escape(d)[5] == HEX[d as int % 16];
        HexInjective(c, d);
      } else {
        assert Escape(c)[5] == Escape(d)[5];
      }
    } else {
      assert Escape(c)[0] == Escape(d)[0];
      if Escape(c)[0] == '\\' {
        assert Escape(c)[1] == Escape(d)[1];
      }
    }
  }

  lemma EscapeUnique(c: char, d: char, r: string, q: string)
    requires Escape(c) + r == Escape(d) + q
    ensures c == d && r == q
  {
    EscapeHead(c);
    EscapeHead(d);
    var a, b := Escape(c), Escape(d);
    assert (a + r)[0] == a[0] && (b + q)[0] == b[0];
    if a[0] == '\\' {
      assert (a + r)[1] == a[1] && (b + q)[1] == b[1];
    }
    SplitAt(a, b, r, q);
    EscapeInjective(c, d);
  }

  lemma QuotedTail(s: string, r: string)
    ensures (Escaped(s) + "\"" + r)[0] == '\"' <==> s == ""
    ensures s == "" ==> (Escaped(s) + "\"" + r)[1..] == r
    ensures s != "" ==> Escaped(s) + "\"" + r == Escape(s[0]) + (Escaped(s[1..]) + "\"" + r)
  {
    if s != "" {
      EscapeHead(s[0]);
      assert Escaped(s) + "\"" + r == Escape(s[0]) + (Escaped(s[1..]) + "\"" + r);
    }
  }

  lemma {:induction false} EscapedUnique(s: string, t: string, r: string, q: string)
    requires Escaped(s) + "\"" + r == Escaped(t) + "\"" + q
    ensures s == t && r == q
  {
    QuotedTail(s, r);
    QuotedTail(t, q);
    if s != "" {
      EscapeUnique(s[0], t[0], Escaped(s[1..]) + "\"" + r, Escaped(t[1..]) + "\"" + q);
      EscapedUnique(s[1..], t[1..], r, q);
      assert s == [s[0]] + s[1..] && t == [t[0]] + t[1..];
    }
  }

  lemma QuoteUnique(s: string, t: string, r: string, q: string)
    requires Quote(s) + r == Quote(t) + q
    ensures s == t && r == q
  {
    hide Escaped;
    Unwrap("\"", Escaped(s), "\"", r);
    Unwrap("\"", Escaped(t), "\"", q);
    EscapedUnique(s, t, r, q);
  }

  // ----- reading back: values -----

  /** Only an integer can run on into what follows it. */
  predicate Ends(v: Json, rest: string) { v.Int? ==> !DigitFirst(rest) }

  lemma CanonicalHead(v: Json, rest: string)
    ensures var t := Canonical(v) + rest;
            && t != ""
            && (v.Null? <==> t[0] == 'n')
            && (v.Bool? && v.b <==> t[0] == 't')
            && (v.Bool? && !v.b <==> t[0] == 'f')
            && (v.Int? <==> t[0] == '-' || IsDigit(t[0]))
            && (v.Str? <==> t[0] == '\"')
            && (v.Arr? <==> t[0] == '[')
            && (v.Obj? <==> t[0] == '{')
  {
  }

  lemma Unwrap(open: string, body: string, close: string, rest: string)
    requires |open| == 1
    ensures (open + body + close + rest)[1..] == body + close + rest
  {
  }

  lemma RegroupLast(a: string, close: string, rest: string)
    ensures a + close + rest == a + (close + rest)
  {
  }

  lemma RegroupMore(a: string, sep: string, more: string, close: string, rest: string)
    ensures a + sep + more + close + rest == a + (sep + (more + close + rest))
  {
  }

  lemma RegroupPair(q: string, c: string, tail: string)
    ensures (q + ":" + c) + tail == q + (":" + (c + tail))
  {
  }

  /** A text holds at most one value at its front: whatever follows an encoding, the value and
      the rest are determined (after an integer, what follows must not be another digit). */
  lemma {:induction false} UniqueReading(v: Json, w: Json, r: string, q: string)
    requires Canonical(v) + r == Canonical(w) + q
    requires Ends(v, r) && Ends(w, q)
    ensures v == w && r == q
    decreases v, 1
  {
    CanonicalHead(v, r);
    CanonicalHead(w, q);
    match v
    case Null => SplitAt(Canonical(v), Canonical(w), r, q);
    case Bool(b) => SplitAt(Canonical(v), Canonical(w), r, q);
    case Int(n) => DecimalUnique(n, w.n, r, q);
    case Str(s) => QuoteUnique(s, w.s, r, q);
    case Arr(items) =>
      Unwrap("[", Elements(v.items), "]", r);
      Unwrap("[", Elements(w.items), "]", q);
      ElementsUnique(v.items, w.items, r, q);
    case Obj(m) =>
      var ks, js := Listing(v.members.Keys), Listing(w.members.Keys);
      Unwrap("{", Members(v, ks), "}", r);
      Unwrap("{", Members(w, js), "}", q);
      MembersUnique(v, w, ks, js, r, q);
      assert v.members == w.members;
  }

  /** What follows the first element of a list of elements. */
  ghost function AfterElement(items: seq<Json>, rest: string): string
    requires items != []
  {
    if |items| == 1 then "]" + rest else "," + (Elements(items[1..]) + "]" + rest)
  }

  lemma ElementsHead(items: seq<Json>, rest: string)
    ensures items == [] <==> (Elements(items) + "]" + rest)[0] == ']'
    ensures items == [] ==> (Elements(items) + "]" + rest)[1..] == rest
    ensures items != [] ==> Elements(items) + "]" + rest == Canonical(items[0]) + AfterElement(items, rest)
    ensures |items| == 1 ==> AfterElement(items, rest)[1..] == rest
  {
    if |items| == 1 {
      RegroupLast(Canonical(items[0]), "]", rest);
    } else if items != [] {
      RegroupMore(Canonical(items[0]), ",", Elements(items[1..]), "]", rest);
    }
    if items != [] {
      CanonicalHead(items[0], AfterElement(items, rest));
    }
  }

  lemma {:induction false} ElementsUnique(xs: seq<Json>, ys: seq<Json>, r: string, q: string)
    requires Elements(xs) + "]" + r == Elements(ys) + "]" + q
    ensures xs == ys && r == q
    decreases xs, 0
  {
    hide Canonical, Elements;
    ElementsHead(xs, r);
    ElementsHead(ys, q);
    if xs != [] {
      UniqueReading(xs[0], ys[0], AfterElement(xs, r), AfterElement(ys, q));
      if |xs| > 1 {
        assert AfterElement(xs, r)[1..] == Elements(xs[1..]) + "]" + r;
        assert AfterElement(ys, q)[1..] == Elements(ys[1..]) + "]" + q;
        ElementsUnique(xs[1..], ys[1..], r, q);
      }
      assert xs == [xs[0]] + xs[1..] && ys == [ys[0]] + ys[1..];
    }
  }

  ghost function AfterMember(v: Json, keys: seq<string>, rest: string): string
    requires v.Obj? && (forall k :: k in keys ==> k in v.members) && keys != []
  {
    if |keys| == 1 then "}" + rest else "," + (Members(v, keys[1..]) + "}" + rest)
  }

  lemma MembersHead(v: Json, keys: seq<string>, rest: string)
    requires v.Obj? && forall k :: k in keys ==> k in v.members
    ensures keys == [] <==> (Members(v, keys) + "}" + rest)[0] == '}'
    ensures keys == [] ==> (Members(v, keys) + "}" + rest)[1..] == rest
    ensures keys != [] ==> Members(v, keys) + "}" + rest
                           == Quote(keys[0]) + (":" + (Canonical(v.members[keys[0]]) + AfterMember(v, keys, rest)))
    ensures |keys| == 1 ==> AfterMember(v, keys, rest)[1..] == rest
  {
    if keys != [] {
      var key, c := Quote(keys[0]), Canonical(v.members[keys[0]]);
      if |keys| == 1 {
        RegroupLast(key + ":" + c, "}", rest);
      } else {
        RegroupMore(key + ":" + c, ",", Members(v, keys[1..]), "}", rest);
      }
      RegroupPair(key, c, AfterMember(v, keys, rest));
    }
  }

  lemma {:induction false} MembersUnique(v: Json, w: Json, ks: seq<string>, js: seq<string>, r: string, q: string)
    requires v.Obj? && forall k :: k in ks ==> k in v.members
    requires w.Obj? && forall k :: k in js ==> k in w.members
    requires Members(v, ks) + "}" + r == Members(w, js) + "}" + q
    ensures ks == js && r == q
    ensures forall k :: k in ks ==> v.members[k] == w.members[k]
    decreases v, 0, |ks|
  {
    MembersHead(v, ks, r);
    MembersHead(w, js, q);
    if ks != [] {
      var k, j := ks[0], js[0];
      var t := Canonical(v.members[k]) + AfterMember(v, ks, r);
      var u := Canonical(w.members[j]) + AfterMember(w, js, q);
      QuoteUnique(k, j, ":" + t, ":" + u);
      assert (":" + t)[1..] == t && (":" + u)[1..] == u;
      UniqueReading(v.members[k], w.members[j], AfterMember(v, ks, r), AfterMember(w, js, q));
      if |ks| > 1 {
        assert AfterMember(v, ks, r)[1..] == Members(v, ks[1..]) + "}" + r;
        assert AfterMember(w, js, q)[1..] == Members(w, js[1..]) + "}" + q;
        MembersUnique(v, w, ks[1..], js[1..], r, q);
      }
      assert ks == [k] + ks[1..] && js == [j] + js[1..];
    }
  }

  /** Equal encodings mean equal values. */
  lemma CanonicalInjective(v: Json, w: Json)
    ensures Canonical(v) == Canonical(w) <==> v == w
  {
    if Canonical(v) == Canonical(w) {
      UniqueReading(v, w, "", "");
    }
  }

  // ----- when one encoding is the beginning of another -----

  function Extend(n: nat, rest: string): nat
    requires AllDigits(rest)
    decreases |rest|
  {
    if rest == "" then n else Extend(10 * n + (rest[0] as int - '0' as int), rest[1..])
  }

  lemma {:induction false} ExtendDigits(n: nat, rest: string)
    requires n > 0 && AllDigits(rest)
    ensures Extend(n, rest) > 0 && Digits(Extend(n, rest)) == Digits(n) + rest
    decreases |rest|
  {
    if rest == "" {
      assert Digits(n) + rest == Digits(n);
    } else {
      var d := rest[0] as int - '0' as int;
      assert (10 * n + d) / 10 == n && (10 * n + d) % 10 == d;
      assert Digits(10 * n + d) == Digits(n) + [rest[0]];
      ExtendDigits(10 * n + d, rest[1..]);
      assert Digits(n) + [rest[0]] + rest[1..] == Digits(n) + rest;
    }
  }

  lemma DigitsExtended(m: nat, n: nat, rest: string)
    requires Digits(m) == Digits(n) + rest && rest != ""
    ensures AllDigits(rest) && n != 0
  {
    forall i | 0 <= i < |rest| ensures IsDigit(rest[i]) {
      assert rest[i] == Digits(m)[|Digits(n)| + i];
    }
    assert Digits(m)[0] == Digits(n)[0];
  }

  lemma IntExtended(n: int, m: int, rest: string)
    requires Decimal(m) == Decimal(n) + rest && rest != ""
    ensures n != 0 && AllDigits(rest)
  {
    DecimalHead(n, rest);
    DecimalHead(m, "");
    assert Decimal(m) + "" == Decimal(m);
    if n < 0 {
      assert Digits(-m) == Digits(-m) + "";
      DigitsExtended(-m, -n, rest);
    } else {
      DigitsExtended(m, n, rest);
    }
  }

  /** An encoding is a proper beginning of another one exactly when it is a non-zero integer
      and only digits follow; every other encoding followed by anything is unambiguous. */
  lemma ProperBeginning(v: Json, rest: string)
    requires rest != ""
    ensures (exists w :: Canonical(w) == Canonical(v) + rest) <==> v.Int? && v.n != 0 && AllDigits(rest)
  {
    if v.Int? && v.n != 0 && AllDigits(rest) {
      var n := if v.n < 0 then -v.n else v.n;
      ExtendDigits(n, rest);
      var e: int := Extend(n, rest);
      var w := Int(if v.n < 0 then -e else e);
      assert v.n < 0 ==> "-" + (Digits(n) + rest) == "-" + Digits(n) + rest;
      assert Canonical(w) == Canonical(v) + rest;
    }
    forall w | Canonical(w) == Canonical(v) + rest
      ensures v.Int? && v.n != 0 && AllDigits(rest)
    {
      assert Canonical(w) + "" == Canonical(w);
      CanonicalHead(v, rest);
      CanonicalHead(w, "");
      if v.Int? {
        IntExtended(v.n, w.n, rest);
      } else {
        UniqueReading(v, w, rest, "");
      }
    }
  }

  // ----- what is printed -----

  function Joined(parts: seq<string>): string {
    if parts == [] then "" else if |parts| == 1 then parts[0] else parts[0] + "," + Joined(parts[1..])
  }

  lemma {:induction false} MembersJoined(v: Json, keys: seq<string>)
    requires v.Obj? && forall k :: k in keys ==> k in v.members
    ensures Members(v, keys) ==
            Joined(seq(|keys|, i requires 0 <= i < |keys| => Quote(keys[i]) + ":" + Canonical(v.members[keys[i]])))
    decreases |keys|
  {
    if |keys| > 1 {
      MembersJoined(v, keys[1..]);
      var all := seq(|keys|, i requires 0 <= i < |keys| => Quote(keys[i]) + ":" + Canonical(v.members[keys[i]]));
      var rest := keys[1..];
      assert all[1..] == seq(|rest|, i requires 0 <= i < |rest| => Quote(rest[i]) + ":"
                             + Canonical(v.members[rest[i]]));
    }
  }

  lemma {:induction false} ElementsJoined(items: seq<Json>)
    ensures Elements(items) == Joined(seq(|items|, i requires 0 <= i < |items| => Canonical(items[i])))
    decreases |items|
  {
    if |items| > 1 {
      ElementsJoined(items[1..]);
      var all := seq(|items|, i requires 0 <= i < |items| => Canonical(items[i]));
      var rest := items[1..];
      assert all[1..] == seq(|rest|, i requires 0 <= i < |rest| => Canonical(rest[i]));
    }
  }

  /** An object is printed as its members, each once, with the keys ascending by code points. */
  lemma PrintsAscending(v: Json) returns (keys: seq<string>)
    requires v.Obj?
    ensures forall k :: k in keys <==> k in v.members
    ensures forall i, j :: 0 <= i < j < |keys| ==> ComesBefore(keys[i], keys[j])
    ensures Canonical(v) ==
            "{" + Joined(seq(|keys|, i requires 0 <= i < |keys| => Quote(keys[i]) + ":"
                             + Canonical(v.members[keys[i]]))) + "}"
  {
    keys := Listing(v.members.Keys);
    MembersJoined(v, keys);
    forall i, j | 0 <= i < j < |keys| ensures ComesBefore(keys[i], keys[j]) {
      LessIsCodePointOrder(keys[i], keys[j]);
    }
  }

  lemma PrintsInOrder(items: seq<Json>)
    ensures Canonical(Arr(items)) ==
              "[" + Joined(seq(|items|, i requires 0 <= i < |items| => Canonical(items[i]))) + "]"
  {
    ElementsJoined(items);
  }

  lemma LiteralTexts()
    ensures Canonical(Null) == "null" && Canonical(Bool(true)) == "true" && Canonical(Bool(false)) == "false"
    ensures Canonical(Arr([])) == "[]" && Canonical(Obj(map[])) == "{}" && Canonical(Str("")) == "\"\""
  {
    var none: map<string, Json> := map[];
    assert none.Keys == {};
  }

  /** An integer is printed as a minus sign if it is negative, and its decimal digits. */
  lemma IntegerTexts(n: int)
    ensures Canonical(Int(n)) == (if n < 0 then "-" else "") + Digits(if n < 0 then -n else n)
    ensures ValueOf(Digits(if n < 0 then -n else n)) == if n < 0 then -n else n
    ensures |Digits(if n < 0 then -n else n)| > 1 ==> Digits(if n < 0 then -n else n)[0] != '0'
  {
    DigitsValue(if n < 0 then -n else n);
  }

  /** Two characters for the quote, the backslash and the control characters that have a letter. */
  lemma EscapeTexts()
    ensures Escape('\"') == "\\\"" && Escape('\\') == "\\\\"
    ensures Escape('\n') == "\\n" && Escape('\r') == "\\r" && Escape('\t') == "\\t"
    ensures Escape('\U{2028}') == "\\u2028" && Escape('\U{2029}') == "\\u2029"
  {
  }

  /** Everything from the space on is printed as it is, save the quote, the backslash and the two
      line separators. */
  lemma PlainTexts(c: char)
    requires c as int >= 0x20 && c != '\"' && c != '\\' && c != '\U{2028}' && c != '\U{2029}'
    ensures Escape(c) == [c]
  {
  }

  /** Any other control character is printed as its code in lower-case hexadecimal. */
  lemma ControlTexts(c: char)
    requires c as int < 0x20 && c != '\n' && c != '\r' && c != '\t'
    ensures |Escape(c)| == 6 && Escape(c)[..4] == "\\u00"
    ensures c as int == 16 * HexValue(Escape(c)[4]) + HexValue(Escape(c)[5])
  {
    HexValues(c as int / 16);
    HexValues(c as int % 16);
    assert Escape(c) == "\\u00" + [HEX[c as int / 16], HEX[c as int % 16]];
  }

  lemma HexValues(d: nat)
    requires d < 16
    ensures HexValue(HEX[d]) == d
  {
  }

  function HexValue(h: char): int {
    if '0' <= h <= '9' then h as int - '0' as int
    else if 'a' <= h <= 'f' then h as int - 'a' as int + 10
    else -1
  }

  // ----- the printers -----

  lemma {:induction false} EscapedAppend(s: string, c: char)
    ensures Escaped(s + [c]) == Escaped(s) + Escape(c)
  {
    if s == "" {
      assert s + [c] == [c] && [c][1..] == "";
    } else {
      assert (s + [c])[1..] == s[1..] + [c];
      EscapedAppend(s[1..], c);
    }
  }

  lemma EscapedStep(s: string, i: nat)
    requires i < |s|
    ensures "\"" + Escaped(s[..i]) + Escape(s[i]) == "\"" + Escaped(s[..i + 1])
  {
    assert s[..i + 1] == s[..i] + [s[i]];
    EscapedAppend(s[..i], s[i]);
  }

  /** The escape loop: one pass over the string, appending to the output. */
  method PrintString(s: string) returns (out: string)
    ensures out == Quote(s)
  {
    out := "\"";
    var i := 0;
    while i < |s|
      invariant 0 <= i <= |s|
      invariant out == "\"" + Escaped(s[..i])
    {
      EscapedStep(s, i);
      out := out + Escape(s[i]);
      i := i + 1;
    }
    assert s[..|s|] == s;
    out := out + "\"";
  }

  lemma {:induction false} ElementsAppend(items: seq<Json>, v: Json)
    ensures Elements(items + [v]) == if items == [] then Canonical(v) else Elements(items) + "," + Canonical(v)
  {
    if |items| == 0 {
      assert items + [v] == [v];
    } else if |items| == 1 {
      assert (items + [v])[1..] == [v];
    } else {
      assert (items + [v])[1..] == items[1..] + [v];
      ElementsAppend(items[1..], v);
      RegroupPrefix(Canonical(items[0]), Elements(items[1..]), Canonical(v));
    }
  }

  lemma RegroupPrefix(a: string, more: string, last: string)
    ensures a + "," + (more + "," + last) == (a + "," + more) + "," + last
  {
  }

  lemma {:induction false} MembersAppend(v: Json, keys: seq<string>, k: string)
    requires v.Obj? && k in v.members && forall j :: j in keys ==> j in v.members
    ensures Members(v, keys + [k])
         == if keys == [] then Member(v, k) else Members(v, keys) + "," + Member(v, k)
    decreases |keys|
  {
    if |keys| == 0 {
      assert keys + [k] == [k];
    } else if |keys| == 1 {
      assert (keys + [k])[1..] == [k];
    } else {
      assert (keys + [k])[1..] == keys[1..] + [k];
      MembersAppend(v, keys[1..], k);
      RegroupPrefix(Member(v, keys[0]), Members(v, keys[1..]), Member(v, k));
    }
  }

  /** The keys of an object, taken in whatever order they come and then sorted. */
  method SortedKeys(m: map<string, Json>) returns (keys: seq<string>)
    ensures keys == Listing(m.Keys)
  {
    keys := [];
    var left := m.Keys;
    while left != {}
      invariant left <= m.Keys
      invariant Sorted(keys)
      invariant forall k :: k in keys <==> k in m.Keys && k !in left
      decreases |left|
    {
      var k :| k in left;
      keys := Insert(keys, k);
      left := left - {k};
    }
    ListingUnique(keys, Listing(m.Keys));
  }

  lemma ElementsStep(items: seq<Json>, i: nat)
    requires i < |items|
    ensures (if i > 0 then "[" + Elements(items[..i]) + "," else "[" + Elements(items[..i])) + Canonical(items[i])
         == "[" + Elements(items[..i + 1])
  {
    assert items[..i + 1] == items[..i] + [items[i]];
    ElementsAppend(items[..i], items[i]);
  }

  lemma MembersStep(v: Json, keys: seq<string>, i: nat)
    requires v.Obj? && i < |keys| && forall k :: k in keys ==> k in v.members
    ensures (if i > 0 then "{" + Members(v, keys[..i]) + "," else "{" + Members(v, keys[..i])) + Member(v, keys[i])
         == "{" + Members(v, keys[..i + 1])
  {
    assert keys[..i + 1] == keys[..i] + [keys[i]];
    MembersAppend(v, keys[..i], keys[i]);
  }

  /** The printer: appends to a buffer, looping over array elements and over sorted keys. */
  method Print(v: Json) returns (out: string)
    ensures out == Canonical(v)
    decreases v, 1
  {
    match v
    case Null => out := "null";
    case Bool(b) => out := if b then "true" else "false";
    case Int(n) => out := Decimal(n);
    case Str(s) => out := PrintString(s);
    case Arr(_) => out := PrintArray(v);
    case Obj(_) => out := PrintObject(v);
  }

  method PrintArray(v: Json) returns (out: string)
    requires v.Arr?
    ensures out == Canonical(v)
    decreases v, 0
  {
    out := "[";
    for i := 0 to |v.items|
      invariant out == "[" + Elements(v.items[..i])
    {
      ElementsStep(v.items, i);
      if i > 0 {
        out := out + ",";
      }
      var e := Print(v.items[i]);
      out := out + e;
    }
    assert v.items[..|v.items|] == v.items;
    out := out + "]";
  }

  method PrintObject(v: Json) returns (out: string)
    requires v.Obj?
    ensures out == Canonical(v)
    decreases v, 0
  {
    var keys := SortedKeys(v.members);
    out := "{";
    for i := 0 to |keys|
      invariant out == "{" + Members(v, keys[..i])
    {
      MembersStep(v, keys, i);
      if i > 0 {
        out := out + ",";
      }
      var k := PrintString(keys[i]);
      var e := Print(v.members[keys[i]]);
      out := out + (k + ":" + e);
    }
    assert keys[..|keys|] == keys;
    out := out + "}";
  }
}
