// Port and address texts: the Go library functions the controller leans on
// (strconv.Atoi, strings.Split, net.ParseIP for dotted quads) and the two
// validators of pkg/controller/utils.go built from them.
module Text {
  import opened Wrappers

  type Port = p: nat | p < 0x1_0000 // uint16
  type Octet = n: nat | n < 256
  datatype IPv4 = IPv4(a: Octet, b: Octet, c: Octet, d: Octet)

  const ERR_PORT: Port := 0
  const ERR_ADDR := "0.0.0.0"

  // ---------------------------------------------------------------- digits

  predicate IsDigit(c: char) { '0' <= c <= '9' }

  predicate AllDigits(s: string) { forall i :: 0 <= i < |s| ==> IsDigit(s[i]) }

  function DigitValue(c: char): nat
    requires IsDigit(c)
  {
    c as int - '0' as int
  }

  function Digits(s: string): nat
    requires AllDigits(s)
  {
    if s == [] then 0 else Digits(s[..|s| - 1]) * 10 + DigitValue(s[|s| - 1])
  }

  function DigitChar(n: nat): (c: char)
    requires n < 10
    ensures IsDigit(c) && DigitValue(c) == n
  {
    ('0' as int + n) as char
  }

  // The decimal text of n, without leading zeros.
  function Decimal(n: nat): (s: string)
    ensures s != [] && AllDigits(s)
  {
    if n < 10 then [DigitChar(n)] else Decimal(n / 10) + [DigitChar(n % 10)]
  }

  lemma {:induction false} DecimalValue(n: nat)
    ensures Digits(Decimal(n)) == n
  {
    if n >= 10 {
      DecimalValue(n / 10);
      assert Decimal(n)[..|Decimal(n)| - 1] == Decimal(n / 10);
    }
  }

  // ---------------------------------------------------------------- Atoi

  // A non-empty run of digits after at most one sign.
  function Unsigned(s: string): string {
    if s != [] && (s[0] == '+' || s[0] == '-') then s[1..] else s
  }

  // strconv.Atoi on a 64-bit machine; None is its error return.
  function Atoi(s: string): Option<int> {
    var digits := Unsigned(s);
    if digits == [] || !AllDigits(digits) then None
    else
      var v: int := Digits(digits) as int * (if s[0] == '-' then -1 else 1);
      if -0x8000_0000_0000_0000 <= v < 0x8000_0000_0000_0000 then Some(v) else None
  }

  lemma AtoiDecimal(n: nat)
    requires n < 0x8000_0000_0000_0000
    ensures Atoi(Decimal(n)) == Some(n)
  {
    DecimalValue(n);
    assert IsDigit(Decimal(n)[0]);
  }

  // The texts of numbers: at most one sign, then ten kinds of digits.
  predicate IsNumber(x: string, sign: string, digits: string) {
    x == sign + digits && (sign == "" || sign == "+" || sign == "-") && digits != "" && AllDigits(digits)
  }

  lemma TenDigits(c: char)
    ensures IsDigit(c) <==> c in "0123456789"
    ensures IsDigit(c) ==> "0123456789"[DigitValue(c)] == c
  {
    if IsDigit(c) {
      assert "0123456789"[c as int - '0' as int] == c;
    }
  }

  // Their value, digit by digit, leading zeros or not.
  lemma DigitsSnoc(s: string, c: char)
    requires AllDigits(s) && IsDigit(c)
    ensures AllDigits(s + [c]) && Digits(s + [c]) == 10 * Digits(s) + DigitValue(c)
    ensures Digits("") == 0
  {
    assert (s + [c])[..|s|] == s;
  }

  // A text of such a number in 0..max; a minus sign leaves only zero.
  predicate InRange(x: string, sign: string, digits: string, max: nat) {
    IsNumber(x, sign, digits) && Digits(digits) <= max && (sign == "-" ==> Digits(digits) == 0)
  }

  // Atoi yields a value in 0..max on exactly these texts.
  lemma AtoiInRangeIff(x: string, max: nat)
    requires max < 0x8000_0000_0000_0000
    ensures Atoi(x).Some? && 0 <= Atoi(x).value <= max <==> exists sign, digits :: InRange(x, sign, digits, max)
    ensures forall sign, digits :: InRange(x, sign, digits, max) ==> Atoi(x) == Some(Digits(digits))
  {
    forall sign, digits | InRange(x, sign, digits, max)
      ensures Atoi(x) == Some(Digits(digits))
    {
      SignAndDigits(x, sign, digits);
    }
    if Atoi(x).Some? && 0 <= Atoi(x).value <= max {
      var digits := Unsigned(x);
      var sign := x[..|x| - |digits|];
      assert x == sign + digits;
      assert InRange(x, sign, digits, max);
    }
  }

  lemma SignAndDigits(x: string, sign: string, digits: string)
    requires IsNumber(x, sign, digits)
    ensures Unsigned(x) == digits && (x[0] == '-' <==> sign == "-")
  {
    assert IsDigit(digits[0]);
    if sign == "" {
      assert x == digits;
    } else {
      assert x[0] == sign[0] && x[1..] == digits;
    }
  }

  // ---------------------------------------------------------------- ports

  predicate AcceptsPort(text: string) {
    match Atoi(text)
    case None => false
    case Some(p) => 0 <= p <= 99999
  }

  // The result is (ok, port); uint16(iport) keeps the low 16 bits.
  function ValidatePort(text: string): (bool, Port) {
    if !AcceptsPort(text) then (false, ERR_PORT)
    else (true, Atoi(text).value % 0x1_0000)
  }

  lemma PortRoundTrip(p: Port)
    ensures ValidatePort(Decimal(p)) == (true, p)
  {
    AtoiDecimal(p);
  }

  // Exactly the numbers up to 99999 are accepted, for their low 16 bits; every
  // other text is refused with port 0.
  lemma PortTextIff(text: string)
    ensures ValidatePort(text).0 <==> exists sign, digits :: InRange(text, sign, digits, 99999)
    ensures forall sign, digits :: InRange(text, sign, digits, 99999) ==>
              ValidatePort(text).1 == Digits(digits) % 0x1_0000
    ensures !ValidatePort(text).0 ==> ValidatePort(text).1 == 0
  {
    AtoiInRangeIff(text, 99999);
  }

  // Two accepted texts name one port exactly when their values are equal or
  // lie 2^16 apart.
  lemma PortCollisions(s: string, t: string)
    requires AcceptsPort(s) && AcceptsPort(t)
    ensures ValidatePort(s) == ValidatePort(t) <==>
            var v, w := Atoi(s).value, Atoi(t).value;
            v == w || v == w + 0x1_0000 || w == v + 0x1_0000
  {
    var v, w := Atoi(s).value, Atoi(t).value;
    assert v % 0x1_0000 == if v < 0x1_0000 then v else v - 0x1_0000;
    assert w % 0x1_0000 == if w < 0x1_0000 then w else w - 0x1_0000;
  }

  // Collisions and port 0 do occur: "65616" is taken for port 80, and "65536"
  // for port 0.
  lemma PortCollisionHappens()
    ensures Decimal(80) != Decimal(65616)
    ensures ValidatePort(Decimal(80)) == ValidatePort(Decimal(65616)) == (true, 80)
    ensures ValidatePort(Decimal(0)) == ValidatePort(Decimal(65536)) == (true, 0)
  {
    AtoiDecimal(80);
    AtoiDecimal(65616);
    AtoiDecimal(0);
    AtoiDecimal(65536);
  }

  // libipvs refuses port 0 by panicking; an accepted text avoids it exactly
  // when its value is neither 0 nor 65536.
  lemma PortUsableIff(text: string)
    requires AcceptsPort(text)
    ensures ValidatePort(text).1 != 0 <==> Atoi(text) != Some(0) && Atoi(text) != Some(0x1_0000)
  {
    var v := Atoi(text).value;
    assert v % 0x1_0000 == if v < 0x1_0000 then v else v - 0x1_0000;
  }

  // ---------------------------------------------------------------- Split

  // strings.Split with a one-character separator: always at least one field.
  function Split(s: string, sep: char): (fields: seq<string>)
    ensures |fields| >= 1
  {
    if s == [] then [[]]
    else if s[0] == sep then [[]] + Split(s[1..], sep)
    else
      var rest := Split(s[1..], sep);
      [[s[0]] + rest[0]] + rest[1..]
  }

  lemma {:induction false} SplitNone(s: string, sep: char)
    requires sep !in s
    ensures Split(s, sep) == [s]
  {
    if s != [] {
      SplitNone(s[1..], sep);
      assert s == [s[0]] + s[1..];
    }
  }

  lemma {:induction false} SplitFirst(s: string, sep: char, rest: string)
    requires sep !in s
    ensures Split(s + [sep] + rest, sep) == [s] + Split(rest, sep)
  {
    var whole := s + [sep] + rest;
    if s == [] {
      assert whole[1..] == rest;
    } else {
      SplitFirst(s[1..], sep, rest);
      assert whole[1..] == s[1..] + [sep] + rest;
      assert [s[0]] + s[1..] == s;
    }
  }

  function Join(fields: seq<string>, sep: char): string
    requires fields != []
  {
    if |fields| == 1 then fields[0] else fields[0] + [sep] + Join(fields[1..], sep)
  }

  // The fields of a text are the only ones without separators that make it up.
  lemma SplitIff(s: string, sep: char, fields: seq<string>)
    requires fields != []
    ensures Split(s, sep) == fields <==> Join(fields, sep) == s && forall f :: f in fields ==> sep !in f
  {
    if Split(s, sep) == fields {
      JoinSplit(s, sep);
    }
    if forall f :: f in fields ==> sep !in f {
      SplitJoin(fields, sep);
    }
  }

  lemma {:induction false} SplitJoin(fields: seq<string>, sep: char)
    requires fields != [] && forall f :: f in fields ==> sep !in f
    ensures Split(Join(fields, sep), sep) == fields
  {
    if |fields| == 1 {
      SplitNone(fields[0], sep);
    } else {
      SplitFirst(fields[0], sep, Join(fields[1..], sep));
      SplitJoin(fields[1..], sep);
    }
  }

  lemma {:induction false} JoinSplit(s: string, sep: char)
    ensures Join(Split(s, sep), sep) == s
    ensures forall f :: f in Split(s, sep) ==> sep !in f
  {
    if s != [] {
      var rest := Split(s[1..], sep);
      JoinSplit(s[1..], sep);
      if s[0] == sep {
        assert Split(s, sep)[1..] == rest;
      } else {
        assert Split(s, sep)[1..] == rest[1..];
        assert Split(s, sep)[0] == [s[0]] + rest[0];
      }
    }
  }

  // ---------------------------------------------------------------- addresses

  predicate AcceptsField(x: string) {
    match Atoi(x)
    case None => false
    case Some(i) => 0 <= i <= 255
  }

  predicate AcceptsIPv4(text: string) {
    var parts := Split(text, '.');
    |parts| >= 4 && forall i :: 0 <= i < |parts| ==> AcceptsField(parts[i])
  }

  // The accepted text itself is carried on, as the bytes of a net.IP.
  method ValidateIPv4(ipv4: string) returns (ok: bool, addr: string)
    ensures ok == AcceptsIPv4(ipv4)
    ensures addr == if ok then ipv4 else ERR_ADDR
  {
    var parts := Split(ipv4, '.');
    if |parts| < 4 {
      return false, ERR_ADDR;
    }
    for k := 0 to |parts|
      invariant forall i :: 0 <= i < k ==> AcceptsField(parts[i])
    {
      var i := Atoi(parts[k]);
      if i.Some? {
        if i.value < 0 || i.value > 255 {
          return false, ERR_ADDR;
        }
      } else {
        return false, ERR_ADDR;
      }
    }
    return true, ipv4;
  }

  // Exactly the texts of four or more numbers up to 255 between dots.
  lemma AddressTextIff(text: string, fields: seq<string>)
    requires fields != [] && Join(fields, '.') == text && forall f :: f in fields ==> '.' !in f
    ensures AcceptsIPv4(text) <==>
            |fields| >= 4 && forall f :: f in fields ==> exists sign, digits :: InRange(f, sign, digits, 255)
  {
    SplitIff(text, '.', fields);
    forall f | f in fields
      ensures AcceptsField(f) <==> exists sign, digits :: InRange(f, sign, digits, 255)
    {
      AtoiInRangeIff(f, 255);
    }
  }

  predicate OctetText(x: string) {
    x != [] && AllDigits(x) && Digits(x) <= 255
  }

  // net.ParseIP on texts without a colon: exactly four unsigned octets.
  // Leading zeros are allowed, as in the Go releases before 1.17.
  function ParseIP(text: string): Option<IPv4> {
    var parts := Split(text, '.');
    if |parts| == 4 && OctetText(parts[0]) && OctetText(parts[1]) && OctetText(parts[2]) && OctetText(parts[3])
    then Some(IPv4(Digits(parts[0]), Digits(parts[1]), Digits(parts[2]), Digits(parts[3])))
    else None
  }

  // IPv4address of RFC 3986, section 3.2.2.
  function Dotted(ip: IPv4): string {
    Join([Decimal(ip.a), Decimal(ip.b), Decimal(ip.c), Decimal(ip.d)], '.')
  }

  lemma DecimalField(n: Octet)
    ensures '.' !in Decimal(n) && OctetText(Decimal(n)) && Digits(Decimal(n)) == n && AcceptsField(Decimal(n))
  {
    DecimalValue(n);
    AtoiDecimal(n);
  }

  lemma DottedFields(ip: IPv4)
    ensures Split(Dotted(ip), '.') == [Decimal(ip.a), Decimal(ip.b), Decimal(ip.c), Decimal(ip.d)]
  {
    DecimalField(ip.a);
    DecimalField(ip.b);
    DecimalField(ip.c);
    DecimalField(ip.d);
    SplitJoin([Decimal(ip.a), Decimal(ip.b), Decimal(ip.c), Decimal(ip.d)], '.');
  }

  // A printed address is accepted, and the bytes carried on parse back to it.
  lemma AddressRoundTrip(ip: IPv4)
    ensures AcceptsIPv4(Dotted(ip)) && ParseIP(Dotted(ip)) == Some(ip)
  {
    DottedFields(ip);
    DecimalField(ip.a);
    DecimalField(ip.b);
    DecimalField(ip.c);
    DecimalField(ip.d);
  }

  // The octets of a text that parses are its fields' values.
  lemma ParsedOctets(fields: seq<string>)
    requires |fields| == 4 && forall f :: f in fields ==> f != "" && AllDigits(f) && Digits(f) <= 255
    ensures ParseIP(Join(fields, '.')) ==
            Some(IPv4(Digits(fields[0]), Digits(fields[1]), Digits(fields[2]), Digits(fields[3])))
  {
    forall f | f in fields
      ensures '.' !in f
    {
      assert forall i :: 0 <= i < |f| ==> IsDigit(f[i]);
    }
    SplitJoin(fields, '.');
  }

  // An accepted text parses exactly when it has four fields and none is signed.
  lemma AcceptedParsesIff(text: string)
    requires AcceptsIPv4(text)
    ensures ParseIP(text).Some? <==>
            var parts := Split(text, '.');
            |parts| == 4 && forall i :: 0 <= i < 4 ==> Unsigned(parts[i]) == parts[i]
  {
    var parts := Split(text, '.');
    forall i | 0 <= i < |parts|
      ensures OctetText(parts[i]) <==> Unsigned(parts[i]) == parts[i]
    {
      FieldParsesIff(parts[i]);
    }
  }

  lemma FieldParsesIff(x: string)
    requires AcceptsField(x)
    ensures OctetText(x) <==> Unsigned(x) == x
  {
    if Unsigned(x) != x {
      assert !IsDigit(x[0]);
    }
  }

  // Everything that parses had been accepted, so the gap is one-sided; it is
  // real, for "0.1.2.3.4" is accepted and does not parse.
  lemma ParsesIsAccepted(text: string)
    requires ParseIP(text).Some?
    ensures AcceptsIPv4(text)
  {
    var parts := Split(text, '.');
    forall i | 0 <= i < 4
      ensures AcceptsField(parts[i])
    {
      assert IsDigit(parts[i][0]);
    }
  }

  lemma AcceptedNotParsed()
    ensures exists text :: AcceptsIPv4(text) && ParseIP(text) == None
  {
    var fields := seq(5, k requires 0 <= k < 5 => Decimal(k));
    forall k | 0 <= k < 5
      ensures '.' !in fields[k] && AcceptsField(fields[k])
    {
      DecimalField(k);
    }
    SplitJoin(fields, '.');
    assert AcceptsIPv4(Join(fields, '.')) && ParseIP(Join(fields, '.')) == None;
  }

  // ---------------------------------------------------------------- tagged keys

  const ADDITION := "adding"
  const DELETION := "deleting"

  // What processItem switches on: the part of an address key before the first
  // underscore.
  function Tag(key: string): string { Split(key, '_')[0] }

  lemma TagOfKey(tag: string, name: string)
    requires '_' !in tag
    ensures Tag(tag + "_" + name) == tag
  {
    assert tag + ['_'] + name == tag + "_" + name;
    SplitFirst(tag, '_', name);
  }

  // strings.Contains
  predicate Contains(s: string, sub: string) {
    exists i :: 0 <= i <= |s| && StartsAt(s, i, sub)
  }

  predicate StartsAt(s: string, i: nat, sub: string) {
    i + |sub| <= |s| && s[i..i + |sub|] == sub
  }

  // Something may stand before, and something after.
  lemma ContainsIff(s: string, sub: string)
    ensures Contains(s, sub) <==> exists pre, post :: s == pre + sub + post
  {
    if Contains(s, sub) {
      var i :| 0 <= i <= |s| && StartsAt(s, i, sub);
      assert s == s[..i] + sub + s[i + |sub|..];
    }
    if pre, post :| s == pre + sub + post {
      assert StartsAt(s, |pre|, sub);
    }
  }
}
