/**
 * The platform-independent GUID column type (src/models/_guid.py): PostgreSQL stores a
 * native UUID, every other database a CHAR(32) holding the UUID's 128-bit integer as 32
 * lower-case hexadecimal digits.
 *
 * Python's `uuid.UUID` is modelled by its 128-bit integer; `str(u)` is its hyphenated
 * lower-case form, and `uuid.UUID(s)` the parser of the standard library.
 */
module Guid {
  import opened Wrappers
  import PyText

  function Pow16(n: nat): (r: nat)
    ensures r > 0
  {
    if n == 0 then 1 else 16 * Pow16(n - 1)
  }

  /** The integers a UUID can hold: 0 through 2^128 - 1 (16^32 = 2^128). */
  type U128 = n: nat | n < Pow16(32)

  /** A `uuid.UUID`, given by its `.int`. */
  datatype Uuid = Uuid(value: U128)

  /** `dialect.name`, as far as the type tells dialects apart. */
  datatype Dialect = Postgresql | OtherDialect(name: string)

  /** The column type `load_dialect_impl` chooses. */
  datatype ColumnType = PgUuid | Char(length: nat)

  /** A value the application binds: None, a `uuid.UUID` or a string. */
  datatype BindValue = NoValue | UuidValue(uuid: Uuid) | TextValue(text: string)

  /** A value read back from the database: a `uuid.UUID` or a string. */
  datatype DbValue = DbUuid(uuid: Uuid) | DbText(text: string)

  /** The message of the ValueError `uuid.UUID` raises for a malformed string. */
  const BadlyFormed := "badly formed hexadecimal UUID string"

  // ---------------------------------------------------------------------------
  // Hexadecimal digits

  predicate IsHexDigit(c: char) {
    '0' <= c <= '9' || 'a' <= c <= 'f' || 'A' <= c <= 'F'
  }

  predicate IsLowerHex(s: string) {
    forall i :: 0 <= i < |s| ==> '0' <= s[i] <= '9' || 'a' <= s[i] <= 'f'
  }

  function HexDigitValue(c: char): (d: nat)
    requires IsHexDigit(c)
    ensures d < 16
  {
    if '0' <= c <= '9' then c as int - '0' as int
    else if 'a' <= c <= 'f' then c as int - 'a' as int + 10
    else c as int - 'A' as int + 10
  }

  function HexChar(d: nat): (c: char)
    requires d < 16
    ensures IsHexDigit(c) && HexDigitValue(c) == d
    ensures '0' <= c <= '9' || 'a' <= c <= 'f'
  {
    if d < 10 then ('0' as int + d) as char else ('a' as int + d - 10) as char
  }

  /** `int(s, 16)` for a string of hexadecimal digits, most significant first. */
  function HexValue(s: string): (v: nat)
    requires forall i :: 0 <= i < |s| ==> IsHexDigit(s[i])
    ensures v < Pow16(|s|)
  {
    if s == [] then 0 else HexValue(s[..|s| - 1]) * 16 + HexDigitValue(s[|s| - 1])
  }

  /** The lowest `width` hexadecimal digits of `n`, zero-padded: `"%.{width}x" % n`. */
  function HexDigits(n: nat, width: nat): (s: string)
    ensures |s| == width && IsLowerHex(s)
    ensures forall i :: 0 <= i < |s| ==> IsHexDigit(s[i])
  {
    if width == 0 then [] else HexDigits(n / 16, width - 1) + [HexChar(n % 16)]
  }

  /** `"%.32x" % n`: for a UUID's integer, exactly 32 lower-case hexadecimal digits. */
  function Hex32(n: U128): (s: string)
    ensures |s| == 32 && IsLowerHex(s)
  {
    HexDigits(n, 32)
  }

  /** The zero-padded rendering reads back as the same number. */
  lemma {:induction false} HexValueOfHexDigits(n: nat, width: nat)
    requires n < Pow16(width)
    ensures HexValue(HexDigits(n, width)) == n
  {
    if width > 0 {
      var s := HexDigits(n, width);
      assert s[..|s| - 1] == HexDigits(n / 16, width - 1);
      assert n / 16 < Pow16(width - 1) by {
        assert n < 16 * Pow16(width - 1);
      }
      HexValueOfHexDigits(n / 16, width - 1);
    }
  }

  // ---------------------------------------------------------------------------
  // uuid.UUID(s) and str(u)

  /** `s.replace(pat, '')`: every occurrence of `pat`, scanned left to right, removed. */
  function RemoveAll(s: string, pat: string): (r: string)
    requires |pat| > 0
    ensures |r| <= |s|
    decreases |s|
  {
    if |s| < |pat| then s
    else if s[..|pat|] == pat then RemoveAll(s[|pat|..], pat)
    else [s[0]] + RemoveAll(s[1..], pat)
  }

  /** `s.strip('{}')` */
  function StripBraces(s: string): (r: string)
    decreases |s|
  {
    if s != [] && (s[0] == '{' || s[0] == '}') then StripBraces(s[1..])
    else if s != [] && (s[|s| - 1] == '{' || s[|s| - 1] == '}') then StripBraces(s[..|s| - 1])
    else s
  }

  /** The digits `uuid.UUID(s)` goes on to read, after removing its decorations. */
  function Undecorate(s: string): string {
    RemoveAll(StripBraces(RemoveAll(RemoveAll(s, "urn:"), "uuid:")), "-")
  }

  /** The digits `int(s, 16)` accepts: hexadecimal digits, with single underscores between them. */
  predicate HexGroups(s: string) {
    && |s| > 0 && IsHexDigit(s[0]) && IsHexDigit(s[|s| - 1])
    && (forall i :: 0 <= i < |s| ==> IsHexDigit(s[i]) || s[i] == '_')
    && (forall i :: 0 <= i < |s| - 1 ==> s[i] == '_' ==> s[i + 1] != '_')
  }

  /** The hexadecimal digits of a run of digit groups, its underscores dropped. */
  function HexOfGroups(s: string): (r: string)
    requires forall i :: 0 <= i < |s| ==> IsHexDigit(s[i]) || s[i] == '_'
    ensures |r| <= |s| && forall i :: 0 <= i < |r| ==> IsHexDigit(r[i])
  {
    if s == [] then [] else if s[0] == '_' then HexOfGroups(s[1..]) else [s[0]] + HexOfGroups(s[1..])
  }

  /** What follows the optional base prefix `0x` or `0X`, and the one underscore allowed after it. */
  function AfterHexPrefix(t: string): string {
    if |t| >= 2 && t[0] == '0' && (t[1] == 'x' || t[1] == 'X') then
      if |t| >= 3 && t[2] == '_' then t[3..] else t[2..]
    else t
  }

  /**
   * Python's `int(s, 16)` (ASCII digits and whitespace): surrounding whitespace, an optional
   * sign, an optional `0x` prefix, then digit groups. None where Python raises ValueError.
   */
  function ParseHexInt(s: string): (r: Option<int>)
    ensures r.Some? ==> PyText.Abs(r.value) < Pow16(|s|)
  {
    var t := PyText.Strip(s);
    if t == [] then None
    else
      var body := AfterHexPrefix(if t[0] == '-' || t[0] == '+' then t[1..] else t);
      if HexGroups(body) then
        var digits := HexOfGroups(body);
        var v: int := HexValue(digits);
        Pow16Monotone(|digits|, |s|);
        Some(if t[0] == '-' then -v else v)
      else None
  }

  /** Only a '-' in the text makes `int(s, 16)` negative. */
  lemma ParseHexIntWithoutMinus(s: string)
    requires forall i :: 0 <= i < |s| ==> s[i] != '-'
    ensures ParseHexInt(s).Some? ==> ParseHexInt(s).value >= 0
  {
    var t := PyText.Strip(s);
    PyText.StripIsInfix(s);
    if t != [] {
      var k := |s| - |PyText.TrimStart(s)|;
      assert t[0] == s[k];
    }
  }

  lemma {:induction false} Pow16Monotone(m: nat, n: nat)
    requires m <= n
    ensures Pow16(m) <= Pow16(n)
    decreases n
  {
    if m < n {
      Pow16Monotone(m, n - 1);
    }
  }

  /**
   * `uuid.UUID(s)`: after the decorations are removed exactly 32 characters must remain, and
   * `int(·, 16)` must read them; the 128-bit range check that follows never fails, as no '-'
   * is left and 32 hexadecimal digits stay below 2^128. Anything else raises ValueError (None).
   */
  function ParseUuid(s: string): (r: Option<Uuid>)
    ensures r.Some? <==> |Undecorate(s)| == 32 && ParseHexInt(Undecorate(s)).Some?
    ensures r.Some? ==> r.value.value == ParseHexInt(Undecorate(s)).value
  {
    var h := Undecorate(s);
    if |h| != 32 then None
    else
      match ParseHexInt(h)
      case None => None
      case Some(v) =>
        RemoveAllRemoves(StripBraces(RemoveAll(RemoveAll(s, "urn:"), "uuid:")), "-");
        ParseHexIntWithoutMinus(h);
        if 0 <= v < Pow16(32) then Some(Uuid(v)) else None
  }

  /** `s.replace(c, '')` for one character leaves no `c`. */
  lemma {:induction false} RemoveAllRemoves(s: string, pat: string)
    requires |pat| == 1
    ensures forall i :: 0 <= i < |RemoveAll(s, pat)| ==> RemoveAll(s, pat)[i] != pat[0]
    decreases |s|
  {
    if |s| >= 1 {
      RemoveAllRemoves(s[1..], pat);
      if s[..1] != pat {
        assert s[0] != pat[0] by { assert s[..1][0] == s[0]; }
      }
    }
  }

  /** `str(u)`: the hyphenated 8-4-4-4-12 lower-case form. */
  function Canonical(u: Uuid): (s: string)
  {
    Join(Groups(Hex32(u.value)))
  }

  /** The 8-4-4-4-12 groups of 32 digits. */
  function Groups(h: string): (parts: seq<string>)
    requires |h| == 32
    ensures |parts| == 5 && Concat(parts) == h
  {
    var parts := [h[..8], h[8..12], h[12..16], h[16..20], h[20..]];
    assert Concat(parts) == h by {
      assert Concat(parts[4..]) == h[20..];
      assert Concat(parts[3..]) == h[16..20] + h[20..];
      assert Concat(parts[2..]) == h[12..16] + h[16..20] + h[20..];
      assert Concat(parts[1..]) == h[8..12] + h[12..16] + h[16..20] + h[20..];
      assert h == h[..8] + h[8..12] + h[12..16] + h[16..20] + h[20..];
    }
    parts
  }

  /** Removal is the identity on a string without the pattern's first character. */
  lemma {:induction false} RemoveAllAbsent(s: string, pat: string)
    requires |pat| > 0 && forall i :: 0 <= i < |s| ==> s[i] != pat[0]
    ensures RemoveAll(s, pat) == s
    decreases |s|
  {
    if |s| >= |pat| {
      assert s[..|pat|][0] == s[0];
      RemoveAllAbsent(s[1..], pat);
    }
  }

  /** Removing '-' from a hyphenated form leaves its hexadecimal digits. */
  lemma {:induction false} RemoveHyphens(parts: seq<string>, joined: string)
    requires parts != [] && forall k :: 0 <= k < |parts| ==> IsLowerHex(parts[k])
    requires joined == Join(parts)
    ensures RemoveAll(joined, "-") == Concat(parts)
    decreases |parts|
  {
    if |parts| == 1 {
      RemoveAllAbsent(parts[0], "-");
    } else {
      var head := parts[0];
      RemoveHyphensAfter(head, Join(parts[1..]));
      RemoveHyphens(parts[1..], Join(parts[1..]));
    }
  }

  lemma {:induction false} RemoveHyphensAfter(head: string, rest: string)
    requires IsLowerHex(head)
    ensures RemoveAll(head + "-" + rest, "-") == head + RemoveAll(rest, "-")
    decreases |head|
  {
    if head == [] {
      assert head + "-" + rest == "-" + rest;
      assert ("-" + rest)[1..] == rest;
    } else {
      var s := head + "-" + rest;
      assert s[0] == head[0] && s[1..] == head[1..] + "-" + rest;
      assert s[..1] != "-";
      RemoveHyphensAfter(head[1..], rest);
      assert head == [head[0]] + head[1..];
    }
  }

  /** The parts joined by '-'. */
  function Join(parts: seq<string>): string
    requires parts != []
  {
    if |parts| == 1 then parts[0] else parts[0] + "-" + Join(parts[1..])
  }

  lemma JoinFive(parts: seq<string>)
    requires |parts| == 5
    ensures Join(parts) == parts[0] + "-" + parts[1] + "-" + parts[2] + "-" + parts[3] + "-" + parts[4]
  {
    assert Join(parts[4..]) == parts[4];
    assert Join(parts[3..]) == parts[3] + "-" + parts[4];
    assert Join(parts[2..]) == parts[2] + "-" + (parts[3] + "-" + parts[4]);
    assert Join(parts[1..]) == parts[1] + "-" + (parts[2] + "-" + (parts[3] + "-" + parts[4]));
  }

  function Concat(parts: seq<string>): string {
    if parts == [] then [] else parts[0] + Concat(parts[1..])
  }

  /** Digits without underscores are kept as they are. */
  lemma {:induction false} HexOfGroupsOfDigits(h: string)
    requires IsLowerHex(h)
    ensures forall i :: 0 <= i < |h| ==> IsHexDigit(h[i])
    ensures HexOfGroups(h) == h
  {
    if h != [] {
      HexOfGroupsOfDigits(h[1..]);
      assert h == [h[0]] + h[1..];
    }
  }

  /** `int(s, 16)` of an unsigned, unpadded text whose digits need no underscore removed. */
  lemma ParseHexIntOfUnsigned(s: string, h: string)
    requires PyText.Strip(s) == s && s != [] && s[0] != '-' && s[0] != '+'
    requires AfterHexPrefix(s) == h && HexGroups(h) && HexOfGroups(h) == h
    ensures forall i :: 0 <= i < |h| ==> IsHexDigit(h[i])
    ensures ParseHexInt(s) == Some(HexValue(h) as int)
  {
  }

  /** Lower-case digits are not whitespace and form one digit group, their own digits. */
  lemma LowerHexIsOneGroup(h: string)
    requires |h| >= 1 && IsLowerHex(h)
    ensures forall i :: 0 <= i < |h| ==> IsHexDigit(h[i])
    ensures !PyText.IsSpace(h[0]) && !PyText.IsSpace(h[|h| - 1])
    ensures h[0] != '-' && h[0] != '+' && AfterHexPrefix(h) == h
    ensures HexGroups(h) && HexOfGroups(h) == h
  {
    HexOfGroupsOfDigits(h);
    if |h| >= 2 {
      assert h[1] != 'x' && h[1] != 'X';
    }
  }

  /** `int(h, 16)` of plain lower-case digits is their value. */
  lemma ParseHexIntOfDigits(h: string)
    requires |h| >= 2 && IsLowerHex(h)
    ensures forall i :: 0 <= i < |h| ==> IsHexDigit(h[i])
    ensures ParseHexInt(h) == Some(HexValue(h) as int)
  {
    LowerHexIsOneGroup(h);
    PyText.StripOfDigitsOrSign(h);
    assert PyText.Strip(h) == h;
    ParseHexIntOfUnsigned(h, h);
  }

  /** `int("0x" + h, 16)` of plain lower-case digits is their value. */
  lemma ParseHexIntOfPrefixedDigits(h: string)
    requires |h| >= 1 && IsLowerHex(h)
    ensures forall i :: 0 <= i < |h| ==> IsHexDigit(h[i])
    ensures ParseHexInt("0x" + h) == Some(HexValue(h) as int)
  {
    LowerHexIsOneGroup(h);
    var s := "0x" + h;
    assert s[|s| - 1] == h[|h| - 1];
    PyText.StripOfDigitsOrSign(s);
    assert s[2] == h[0] && s[2..] == h;
    ParseHexIntOfUnsigned(s, h);
  }

  /** `uuid.UUID(h)` of 32 hexadecimal digits without decorations reads their value. */
  lemma ParseOfPlainHex(h: string)
    requires |h| == 32 && IsLowerHex(h)
    ensures forall i :: 0 <= i < 32 ==> IsHexDigit(h[i])
    ensures Undecorate(h) == h
    ensures ParseUuid(h) == Some(Uuid(HexValue(h)))
  {
    UndecorateOfPlain(h);
    ParseHexIntOfDigits(h);
  }

  /** Text of digits and 'x' has no decoration to remove. */
  lemma UndecorateOfPlain(s: string)
    requires forall i :: 0 <= i < |s| ==> s[i] == 'x' || '0' <= s[i] <= '9' || 'a' <= s[i] <= 'f'
    ensures Undecorate(s) == s
  {
    RemoveAllAbsent(s, "urn:");
    RemoveAllAbsent(s, "uuid:");
    assert StripBraces(s) == s;
    RemoveAllAbsent(s, "-");
  }

  /**
   * `uuid.UUID` hands the 32 characters to `int(·, 16)`, which also reads a `0x` prefix:
   * `uuid.UUID("0x" + h)` of 30 digits is the UUID of their value.
   */
  lemma ParseOfPrefixedHex(h: string)
    requires |h| == 30 && IsLowerHex(h)
    ensures forall i :: 0 <= i < 30 ==> IsHexDigit(h[i])
    ensures ParseUuid("0x" + h) == Some(Uuid(HexValue(h)))
  {
    var s := "0x" + h;
    assert forall i :: 0 <= i < |s| ==> s[i] == 'x' || '0' <= s[i] <= '9' || 'a' <= s[i] <= 'f' by {
      forall i | 0 <= i < |s| ensures s[i] == 'x' || '0' <= s[i] <= '9' || 'a' <= s[i] <= 'f' {
        if i >= 2 { assert s[i] == h[i - 2]; }
      }
    }
    UndecorateOfPlain(s);
    ParseHexIntOfPrefixedDigits(h);
    assert HexValue(h) < Pow16(30);
    Pow16Monotone(30, 32);
  }

  /** `uuid.UUID(u.hex) == u`: the 32-digit form parses back to the same UUID. */
  lemma ParseOfHex32(u: Uuid)
    ensures ParseUuid(Hex32(u.value)) == Some(u)
  {
    ParseOfPlainHex(Hex32(u.value));
    HexValueOfHexDigits(u.value, 32);
  }

  /** Every character of a hyphen-joined sequence of hexadecimal groups is a digit or '-'. */
  lemma {:induction false} JoinChars(parts: seq<string>)
    requires parts != [] && forall k :: 0 <= k < |parts| ==> IsLowerHex(parts[k])
    ensures forall i :: 0 <= i < |Join(parts)| ==> Join(parts)[i] == '-' || IsHexDigit(Join(parts)[i])
    decreases |parts|
  {
    if |parts| > 1 {
      JoinChars(parts[1..]);
      var rest := Join(parts[1..]);
      assert Join(parts) == parts[0] + "-" + rest;
      forall i | 0 <= i < |Join(parts)|
        ensures Join(parts)[i] == '-' || IsHexDigit(Join(parts)[i])
      {
        if i < |parts[0]| {
          assert Join(parts)[i] == parts[0][i];
        } else if i > |parts[0]| {
          assert Join(parts)[i] == rest[i - |parts[0]| - 1];
        }
      }
    }
  }

  /** Removing the decorations from `str(u)` leaves the 32 digits of `u`. */
  lemma UndecorateCanonical(u: Uuid)
    ensures Undecorate(Canonical(u)) == Hex32(u.value)
  {
    var h := Hex32(u.value);
    var parts := Groups(h);
    var c := Canonical(u);
    assert c == Join(parts);
    JoinChars(parts);
    RemoveAllAbsent(c, "urn:");
    RemoveAllAbsent(c, "uuid:");
    JoinFive(parts);
    assert c[0] == h[0] && c[|c| - 1] == h[31];
    assert StripBraces(c) == c;
    RemoveHyphens(parts, c);
  }

  /** `uuid.UUID(str(u)) == u`: the hyphenated form parses back to the same UUID. */
  lemma ParseOfCanonical(u: Uuid)
    ensures ParseUuid(Canonical(u)) == Some(u)
  {
    var h := Hex32(u.value);
    UndecorateCanonical(u);
    ParseOfPlainHex(h);
    ParseOfHex32(u);
  }

  // ---------------------------------------------------------------------------
  // The column type

  /** `load_dialect_impl`: a native UUID on PostgreSQL, CHAR(32) everywhere else. */
  function LoadDialectImpl(d: Dialect): (t: ColumnType)
    ensures d.Postgresql? <==> t == PgUuid
    ensures !d.Postgresql? ==> t == Char(32)
  {
    if d.Postgresql? then PgUuid else Char(32)
  }

  /**
   * `process_bind_param`: None passes through; PostgreSQL gets `str(value)`; every other
   * database the 32 hexadecimal digits of the UUID, parsing a string first (Failure where
   * `uuid.UUID` raises).
   */
  function ProcessBindParam(v: BindValue, d: Dialect): (r: Result<Option<string>, string>)
    ensures v.NoValue? ==> r == Success(None)
    ensures d.Postgresql? && v.UuidValue? ==> r == Success(Some(Canonical(v.uuid)))
    ensures d.Postgresql? && v.TextValue? ==> r == Success(Some(v.text))
    ensures !d.Postgresql? && r.Success? && r.value.Some? ==>
              |r.value.value| == 32 && IsLowerHex(r.value.value)
    ensures !d.Postgresql? && v.TextValue? ==>
              (r.Failure? <==> ParseUuid(v.text).None?)
              && (r.Success? ==> r == Success(Some(Hex32(ParseUuid(v.text).value.value))))
  {
    match v
    case NoValue => Success(None)
    case UuidValue(u) => if d.Postgresql? then Success(Some(Canonical(u))) else Success(Some(Hex32(u.value)))
    case TextValue(s) =>
      if d.Postgresql? then Success(Some(s))
      else match ParseUuid(s)
           case None => Failure(BadlyFormed)
           case Some(u) => Success(Some(Hex32(u.value)))
  }

  /** `process_result_value`: None passes through, a UUID is kept, a string is parsed. */
  function ProcessResultValue(v: Option<DbValue>): (r: Result<Option<Uuid>, string>)
    ensures v.None? ==> r == Success(None)
    ensures v.Some? && v.value.DbUuid? ==> r == Success(Some(v.value.uuid))
    ensures v.Some? && v.value.DbText? ==>
              (r.Success? <==> ParseUuid(v.value.text).Some?)
              && (r.Success? ==> r.value == ParseUuid(v.value.text))
  {
    match v
    case None => Success(None)
    case Some(DbUuid(u)) => Success(Some(u))
    case Some(DbText(s)) =>
      match ParseUuid(s)
      case None => Failure(BadlyFormed)
      case Some(u) => Success(Some(u))
  }

  /** The UUID a bindable value stands for, if any. */
  function Denoted(v: BindValue): Option<Uuid> {
    match v
    case NoValue => None
    case UuidValue(u) => Some(u)
    case TextValue(s) => ParseUuid(s)
  }

  /**
   * The round trip through a text column: whatever binds successfully off PostgreSQL reads
   * back as the UUID it stands for, and None reads back as None.
   */
  lemma RoundTripOffPostgres(v: BindValue, d: Dialect)
    requires !d.Postgresql? && ProcessBindParam(v, d).Success?
    ensures var stored := ProcessBindParam(v, d).value;
            ProcessResultValue(if stored.None? then None else Some(DbText(stored.value)))
              == Success(Denoted(v))
  {
    match v
    case NoValue =>
    case UuidValue(u) => ParseOfHex32(u);
    case TextValue(s) => ParseOfHex32(ParseUuid(s).value);
  }

  /**
   * On PostgreSQL a UUID bound as `str(u)` reads back as the same UUID, whether the driver
   * hands back a UUID or the text.
   */
  lemma RoundTripOnPostgres(u: Uuid)
    ensures ProcessBindParam(UuidValue(u), Postgresql) == Success(Some(Canonical(u)))
    ensures ProcessResultValue(Some(DbText(Canonical(u)))) == Success(Some(u))
    ensures ProcessResultValue(Some(DbUuid(u))) == Success(Some(u))
  {
    ParseOfCanonical(u);
  }

  /** Distinct UUIDs are stored as distinct CHAR(32) values. */
  lemma Hex32Injective(a: Uuid, b: Uuid)
    requires Hex32(a.value) == Hex32(b.value)
    ensures a == b
  {
    HexValueOfHexDigits(a.value, 32);
    HexValueOfHexDigits(b.value, 32);
  }
}
