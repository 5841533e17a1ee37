/** Version comparison by key, and the precedence of SemVer 2.0.0, section 11. */
module SemVer {
  import opened Decimals
  import opened Wrappers

  // ---------------------------------------------------------------------
  // Text
  // ---------------------------------------------------------------------

  predicate IsDigit(c: char) {
    '0' <= c <= '9'
  }

  predicate IsLetter(c: char) {
    'a' <= c <= 'z' || 'A' <= c <= 'Z'
  }

  /** The characters of a dot-separated identifier. */
  predicate IsIdentifier(s: string) {
    s != "" && forall i :: 0 <= i < |s| ==> IsDigit(s[i]) || IsLetter(s[i]) || s[i] == '-'
  }

  function Lower(c: char): char {
    if 'A' <= c <= 'Z' then (c as int + 32) as char else c
  }

  function Folded(s: string): (r: string)
    ensures |r| == |s|
  {
    seq(|s|, i requires 0 <= i < |s| => Lower(s[i]))
  }

  predicate LowerCase(s: string) {
    forall i :: 0 <= i < |s| ==> !('A' <= s[i] <= 'Z')
  }

  /** The part of `s` before the first `c`, and the part after it if there is one. */
  function Cut(s: string, c: char): (r: (string, Option<string>))
    ensures r.1.Some? ==> s == r.0 + [c] + r.1.value
    ensures r.1.None? ==> s == r.0
    ensures c !in r.0
  {
    if s == "" then ("", None)
    else if s[0] == c then ("", Some(s[1..]))
    else
      var rest := Cut(s[1..], c);
      ([s[0]] + rest.0, rest.1)
  }

  function Fields(s: string): (r: seq<string>)
    ensures r != []
    decreases |s|
  {
    match Cut(s, '.') {
      case (head, None) => [head]
      case (head, Some(tail)) => [head] + Fields(tail)
    }
  }

  // ---------------------------------------------------------------------
  // Versions
  // ---------------------------------------------------------------------

  datatype Version = Version(major: nat, minor: nat, patch: nat, prerelease: Option<seq<string>>)

  predicate IsNumeral(s: string) {
    IsDecimal(s) && (|s| > 1 ==> s[0] != '0')
  }

  predicate AllIdentifiers(fields: seq<string>) {
    forall i :: 0 <= i < |fields| ==> IsIdentifier(fields[i])
  }

  /** The version a text matches; `None` when it has another form. */
  function Parsed(text: string): Option<Version> {
    var (front, build) := Cut(text, '+');
    var (core, prerelease) := Cut(front, '-');
    var numbers := Fields(core);
    if build.Some? && !AllIdentifiers(Fields(build.value)) then None
    else if prerelease.Some? && !AllIdentifiers(Fields(prerelease.value)) then None
    else if |numbers| != 3 || !IsNumeral(numbers[0]) || !IsNumeral(numbers[1]) || !IsNumeral(numbers[2]) then None
    else Some(Version(Number(numbers[0]), Number(numbers[1]), Number(numbers[2]),
      if prerelease.Some? then Some(Fields(prerelease.value)) else None))
  }

  // ---------------------------------------------------------------------
  // Version texts
  // ---------------------------------------------------------------------

  function Dotted(fields: seq<string>): string
    requires fields != []
  {
    if |fields| == 1 then fields[0] else fields[0] + "." + Dotted(fields[1..])
  }

  predicate Identifiers(fields: Option<seq<string>>) {
    fields.Some? ==> fields.value != [] && AllIdentifiers(fields.value)
  }

  /** The texts section 2, 9 and 10 of SemVer 2.0.0 describe: three numbers in this
      order, then prerelease identifiers, then build identifiers. */
  function VersionText(
    major: nat, minor: nat, patch: nat, prerelease: Option<seq<string>>, build: Option<seq<string>>): string
    requires Identifiers(prerelease) && Identifiers(build)
  {
    CoreText(major, minor, patch)
    + (if prerelease.Some? then "-" + Dotted(prerelease.value) else "")
    + (if build.Some? then "+" + Dotted(build.value) else "")
  }

  function CoreText(major: nat, minor: nat, patch: nat): string {
    Decimal(major) + "." + Decimal(minor) + "." + Decimal(patch)
  }

  lemma {:induction false} CutAtFirst(head: string, c: char, tail: string)
    requires c !in head
    ensures Cut(head + [c] + tail, c) == (head, Some(tail)) && Cut(head, c) == (head, None)
  {
    if head == "" {
      assert head + [c] + tail == [c] + tail;
    } else {
      CutAtFirst(head[1..], c, tail);
      assert head == [head[0]] + head[1..];
      assert (head + [c] + tail)[1..] == head[1..] + [c] + tail;
    }
  }

  lemma {:induction false} FieldsOfDotted(fields: seq<string>)
    requires fields != [] && forall i :: 0 <= i < |fields| ==> '.' !in fields[i]
    ensures Fields(Dotted(fields)) == fields
  {
    if |fields| == 1 {
      CutAtFirst(fields[0], '.', "");
    } else {
      CutAtFirst(fields[0], '.', Dotted(fields[1..]));
      FieldsOfDotted(fields[1..]);
      assert Dotted(fields) == fields[0] + ['.'] + Dotted(fields[1..]);
    }
  }

  lemma {:induction false} DottedOfFields(s: string)
    ensures Dotted(Fields(s)) == s && forall i :: 0 <= i < |Fields(s)| ==> '.' !in Fields(s)[i]
    decreases |s|
  {
    var (head, tail) := Cut(s, '.');
    if tail.Some? {
      DottedOfFields(tail.value);
      assert Fields(s)[1..] == Fields(tail.value);
    }
  }

  lemma {:induction false} DottedWithout(fields: seq<string>, c: char)
    requires fields != [] && c != '.' && forall i :: 0 <= i < |fields| ==> c !in fields[i]
    ensures c !in Dotted(fields)
  {
    if |fields| > 1 { DottedWithout(fields[1..], c); }
  }

  /** Identifiers, and so texts of them, contain no separators of other parts. */
  lemma DottedIsPlain(fields: seq<string>)
    requires fields != [] && AllIdentifiers(fields)
    ensures '+' !in Dotted(fields) && forall i :: 0 <= i < |fields| ==> '.' !in fields[i]
  {
    DottedWithout(fields, '+');
  }

  lemma CoreIsDotted(a: string, b: string, c: string)
    ensures Dotted([a, b, c]) == a + "." + b + "." + c
  {
    assert [a, b, c][1..] == [b, c] && [b, c][1..] == [c];
    assert Dotted([b, c]) == b + "." + c;
    assert Dotted([a, b, c]) == a + "." + (b + "." + c);
  }

  lemma CoreIsPlain(major: nat, minor: nat, patch: nat)
    ensures '+' !in CoreText(major, minor, patch) && '-' !in CoreText(major, minor, patch)
    ensures Fields(CoreText(major, minor, patch)) == [Decimal(major), Decimal(minor), Decimal(patch)]
  {
    hide Decimal, Dotted, Fields;
    var fields := [Decimal(major), Decimal(minor), Decimal(patch)];
    CoreIsDotted(Decimal(major), Decimal(minor), Decimal(patch));
    DottedWithout(fields, '+');
    DottedWithout(fields, '-');
    FieldsOfDotted(fields);
  }

  lemma DecimalIsNumeral(n: nat)
    ensures IsNumeral(Decimal(n)) && Number(Decimal(n)) == n
  {
    NumberOfDecimal(n);
    NoZeroInFront(n);
  }

  /** Every such text is read as exactly what it says. */
  lemma TextIsParsed(major: nat, minor: nat, patch: nat, prerelease: Option<seq<string>>, build: Option<seq<string>>)
    requires Identifiers(prerelease) && Identifiers(build)
    ensures Parsed(VersionText(major, minor, patch, prerelease, build)) ==
        Some(Version(major, minor, patch, prerelease))
  {
    hide Cut, Fields, CoreText, IsNumeral, Dotted, IsIdentifier;
    var core := CoreText(major, minor, patch);
    var front := core + (if prerelease.Some? then "-" + Dotted(prerelease.value) else "");
    var text := VersionText(major, minor, patch, prerelease, build);
    CoreIsPlain(major, minor, patch);
    if prerelease.Some? {
      DottedIsPlain(prerelease.value);
      FieldsOfDotted(prerelease.value);
      CutAtFirst(core, '-', Dotted(prerelease.value));
      assert front == core + ['-'] + Dotted(prerelease.value);
    } else {
      CutAtFirst(core, '-', "");
      assert front == core;
    }
    assert '+' !in front;
    if build.Some? {
      DottedIsPlain(build.value);
      FieldsOfDotted(build.value);
      CutAtFirst(front, '+', Dotted(build.value));
      assert text == front + ['+'] + Dotted(build.value);
    } else {
      CutAtFirst(front, '+', "");
      assert text == front;
    }
    DecimalIsNumeral(major);
    DecimalIsNumeral(minor);
    DecimalIsNumeral(patch);
  }

  ghost predicate Says(text: string, v: Version, build: Option<seq<string>>) {
    && Identifiers(v.prerelease) && Identifiers(build)
    && text == VersionText(v.major, v.minor, v.patch, v.prerelease, build)
  }

  /** And nothing else is read. */
  lemma ParsedExactly(text: string, v: Version)
    ensures Parsed(text) == Some(v) <==> exists build :: Says(text, v, build)
  {
    if Parsed(text) == Some(v) { OnlyTexts(text, v); }
    if build :| Says(text, v, build) { TextIsParsed(v.major, v.minor, v.patch, v.prerelease, build); }
  }

  lemma OnlyTexts(text: string, v: Version)
    requires Parsed(text) == Some(v)
    ensures exists build :: Says(text, v, build)
  {
    hide Cut, Fields, Dotted, IsIdentifier, CoreText;
    var (front, rest) := Cut(text, '+');
    var (core, prerelease) := Cut(front, '-');
    var numbers := Fields(core);
    CoreIsNumbers(core);
    if prerelease.Some? {
      DottedOfFields(prerelease.value);
      assert front == core + "-" + Dotted(v.prerelease.value);
    }
    var build := if rest.Some? then Some(Fields(rest.value)) else None;
    if rest.Some? { DottedOfFields(rest.value); }
    assert text == VersionText(v.major, v.minor, v.patch, v.prerelease, build);
    assert Says(text, v, build);
  }

  lemma CoreIsNumbers(core: string)
    requires |Fields(core)| == 3
    requires IsNumeral(Fields(core)[0]) && IsNumeral(Fields(core)[1]) && IsNumeral(Fields(core)[2])
    ensures core == CoreText(Number(Fields(core)[0]), Number(Fields(core)[1]), Number(Fields(core)[2]))
  {
    hide Decimal, Dotted, Fields, Number;
    var numbers := Fields(core);
    DottedOfFields(core);
    DecimalOfNumber(numbers[0]);
    DecimalOfNumber(numbers[1]);
    DecimalOfNumber(numbers[2]);
    assert numbers == [numbers[0], numbers[1], numbers[2]];
    CoreIsDotted(numbers[0], numbers[1], numbers[2]);
  }

  /** One position of a comparison key, ordered by its kind and then its value. */
  datatype Item = Numeric(number: nat) | Textual(text: string) | Released

  datatype Key = Key(major: nat, minor: nat, patch: nat, prerelease: seq<Item>)

  predicate LeadingZero(field: string) {
    IsDecimal(field) && |field| > 1 && field[0] == '0'
  }

  function ItemOf(field: string): Item {
    if IsDecimal(field) then Numeric(Number(field)) else Textual(Folded(field))
  }

  function Items(fields: seq<string>): (r: seq<Item>)
    ensures |r| == |fields| && forall i :: 0 <= i < |r| ==> r[i] == ItemOf(fields[i])
  {
    seq(|fields|, i requires 0 <= i < |fields| => ItemOf(fields[i]))
  }

  function KeyOfVersion(version: Version): Option<Key> {
    match version.prerelease
    case None => Some(Key(version.major, version.minor, version.patch, [Released]))
    case Some(fields) =>
      if exists i :: 0 <= i < |fields| && LeadingZero(fields[i]) then None
      else Some(Key(version.major, version.minor, version.patch, Items(fields)))
  }

  function KeyOf(text: string): Option<Key> {
    match Parsed(text) case None => None case Some(version) => KeyOfVersion(version)
  }

  // ---------------------------------------------------------------------
  // The order of keys
  // ---------------------------------------------------------------------

  predicate TextLess(a: string, b: string) {
    b != "" && (a == "" || a[0] < b[0] || (a[0] == b[0] && TextLess(a[1..], b[1..])))
  }

  function Rank(item: Item): nat {
    match item case Numeric(_) => 0 case Textual(_) => 1 case Released => 2
  }

  predicate ItemLess(a: Item, b: Item) {
    if Rank(a) != Rank(b) then Rank(a) < Rank(b)
    else match a
      case Numeric(n) => n < b.number
      case Textual(text) => TextLess(text, b.text)
      case Released => false
  }

  predicate ItemsLess(a: seq<Item>, b: seq<Item>) {
    b != [] && (a == [] || ItemLess(a[0], b[0]) || (a[0] == b[0] && ItemsLess(a[1..], b[1..])))
  }

  /** Tuple comparison, position by position. */
  predicate Less(a: Key, b: Key) {
    if a.major != b.major then a.major < b.major
    else if a.minor != b.minor then a.minor < b.minor
    else if a.patch != b.patch then a.patch < b.patch
    else ItemsLess(a.prerelease, b.prerelease)
  }

  lemma {:induction false} TextOrder(a: string, b: string, c: string)
    ensures TextLess(a, b) || a == b || TextLess(b, a)
    ensures !(TextLess(a, b) && TextLess(b, a)) && !TextLess(a, a)
    ensures TextLess(a, b) && TextLess(b, c) ==> TextLess(a, c)
  {
    var tailA, tailB := if a == "" then "" else a[1..], if b == "" then "" else b[1..];
    var tailC := if c == "" then "" else c[1..];
    if a != "" {
      TextOrder(tailA, tailB, tailC);
      assert a == [a[0]] + tailA;
    }
    assert b != "" ==> b == [b[0]] + tailB;
  }

  lemma ItemOrder(a: Item, b: Item, c: Item)
    ensures ItemLess(a, b) || a == b || ItemLess(b, a)
    ensures !(ItemLess(a, b) && ItemLess(b, a)) && !ItemLess(a, a)
    ensures ItemLess(a, b) && ItemLess(b, c) ==> ItemLess(a, c)
  {
    TextOrder(if a.Textual? then a.text else "", if b.Textual? then b.text else "", if c.Textual? then c.text else "");
  }

  lemma {:induction false} ItemsOrder(a: seq<Item>, b: seq<Item>, c: seq<Item>)
    ensures ItemsLess(a, b) || a == b || ItemsLess(b, a)
    ensures !(ItemsLess(a, b) && ItemsLess(b, a)) && !ItemsLess(a, a)
    ensures ItemsLess(a, b) && ItemsLess(b, c) ==> ItemsLess(a, c)
  {
    if a != [] {
      var tailB, tailC := if b == [] then [] else b[1..], if c == [] then [] else c[1..];
      ItemsOrder(a[1..], tailB, tailC);
      assert a == [a[0]] + a[1..];
      ItemOrder(a[0], if b == [] then a[0] else b[0], if c == [] then a[0] else c[0]);
    }
    assert b != [] ==> b == [b[0]] + b[1..];
  }

  /** Keys are totally ordered. */
  lemma KeysAreOrdered(a: Key, b: Key, c: Key)
    ensures Less(a, b) || a == b || Less(b, a)
    ensures !(Less(a, b) && Less(b, a)) && !Less(a, a)
    ensures Less(a, b) && Less(b, c) ==> Less(a, c)
  {
    ItemsOrder(a.prerelease, b.prerelease, c.prerelease);
  }

  // ---------------------------------------------------------------------
  // Precedence by the standard
  // ---------------------------------------------------------------------

  /** Identifiers of digits compare numerically. */
  predicate SamePrecedence(a: string, b: string) {
    if IsDecimal(a) && IsDecimal(b) then Number(a) == Number(b) else a == b
  }

  /** Numeric identifiers come first; others compare lexically in ASCII order. */
  ghost predicate FieldPrecedes(a: string, b: string) {
    if IsDecimal(a) && IsDecimal(b) then Number(a) < Number(b)
    else if IsDecimal(a) || IsDecimal(b) then IsDecimal(a)
    else AsciiBefore(a, b)
  }

  /** The first character to differ decides, or else being a proper prefix. */
  ghost predicate AsciiBefore(a: string, b: string) {
    exists i :: 0 <= i <= |a| && i <= |b| && a[..i] == b[..i] && AsciiDecided(a, b, i)
  }

  ghost predicate AsciiDecided(a: string, b: string, i: nat)
    requires i <= |a| && i <= |b|
  {
    i < |b| && (i == |a| || a[i] < b[i])
  }

  ghost predicate FieldsAgree(a: seq<string>, b: seq<string>, i: nat)
    requires i <= |a| && i <= |b|
  {
    forall j :: 0 <= j < i ==> SamePrecedence(a[j], b[j])
  }

  /** The first pair of fields to differ decides, or else having more fields. */
  ghost predicate Decided(a: seq<string>, b: seq<string>, i: nat)
    requires i <= |a| && i <= |b|
  {
    i < |b| && (i == |a| || FieldPrecedes(a[i], b[i]))
  }

  ghost predicate FieldsPrecede(a: seq<string>, b: seq<string>) {
    exists i :: 0 <= i <= |a| && i <= |b| && FieldsAgree(a, b, i) && Decided(a, b, i)
  }

  /** Section 11 of SemVer 2.0.0. */
  ghost predicate Precedes(v: Version, w: Version) {
    if v.major != w.major then v.major < w.major
    else if v.minor != w.minor then v.minor < w.minor
    else if v.patch != w.patch then v.patch < w.patch
    else v.prerelease.Some? && (w.prerelease.None? || FieldsPrecede(v.prerelease.value, w.prerelease.value))
  }

  lemma LowerIsFolded(s: string)
    requires LowerCase(s)
    ensures Folded(s) == s
  {
  }

  lemma {:induction false} TextIsAscii(a: string, b: string)
    ensures TextLess(a, b) <==> AsciiBefore(a, b)
  {
    if a != "" && b != "" {
      TextIsAscii(a[1..], b[1..]);
      if TextLess(a[1..], b[1..]) && a[0] == b[0] {
        var i :| 0 <= i <= |a[1..]| && i <= |b[1..]| && a[1..][..i] == b[1..][..i] && AsciiDecided(a[1..], b[1..], i);
        assert a[..i + 1] == [a[0]] + a[1..][..i] && b[..i + 1] == [b[0]] + b[1..][..i];
        assert AsciiDecided(a, b, i + 1);
      }
      if a[0] < b[0] { assert a[..0] == b[..0] && AsciiDecided(a, b, 0); }
      if AsciiBefore(a, b) {
        var i :| 0 <= i <= |a| && i <= |b| && a[..i] == b[..i] && AsciiDecided(a, b, i);
        if i > 0 {
          assert a[..i][0] == a[0] && b[..i][0] == b[0];
          assert a[1..][..i - 1] == a[..i][1..] && b[1..][..i - 1] == b[..i][1..];
          assert AsciiDecided(a[1..], b[1..], i - 1);
        }
      }
    } else {
      assert a[..0] == b[..0];
      assert a == "" && b != "" ==> AsciiDecided(a, b, 0);
    }
  }

  lemma FieldsMatchItems(a: string, b: string)
    requires LowerCase(a) && LowerCase(b)
    ensures ItemOf(a) == ItemOf(b) <==> SamePrecedence(a, b)
    ensures ItemLess(ItemOf(a), ItemOf(b)) <==> FieldPrecedes(a, b)
  {
    LowerIsFolded(a);
    LowerIsFolded(b);
    TextIsAscii(a, b);
  }

  ghost predicate AllLower(fields: seq<string>) {
    forall i :: 0 <= i < |fields| ==> LowerCase(fields[i])
  }

  lemma {:induction false} FieldsAreItems(a: seq<string>, b: seq<string>)
    requires AllLower(a) && AllLower(b)
    ensures ItemsLess(Items(a), Items(b)) <==> FieldsPrecede(a, b)
  {
    hide LowerCase, SamePrecedence, FieldPrecedes, ItemLess, ItemOf;
    if a != [] && b != [] {
      FieldsMatchItems(a[0], b[0]);
      FieldsAreItems(a[1..], b[1..]);
      assert Items(a)[1..] == Items(a[1..]) && Items(b)[1..] == Items(b[1..]);
      if FieldPrecedes(a[0], b[0]) { assert FieldsAgree(a, b, 0) && Decided(a, b, 0); }
      if SamePrecedence(a[0], b[0]) && FieldsPrecede(a[1..], b[1..]) {
        var i :| 0 <= i <= |a[1..]| && i <= |b[1..]| && FieldsAgree(a[1..], b[1..], i) && Decided(a[1..], b[1..], i);
        forall j | 0 <= j < i + 1 ensures SamePrecedence(a[j], b[j]) {
          assert j > 0 ==> SamePrecedence(a[1..][j - 1], b[1..][j - 1]);
        }
        assert FieldsAgree(a, b, i + 1) && Decided(a, b, i + 1);
      }
      if FieldsPrecede(a, b) {
        var i :| 0 <= i <= |a| && i <= |b| && FieldsAgree(a, b, i) && Decided(a, b, i);
        if i > 0 {
          assert SamePrecedence(a[0], b[0]);
          forall j | 0 <= j < i - 1 ensures SamePrecedence(a[1..][j], b[1..][j]) {
            assert SamePrecedence(a[j + 1], b[j + 1]);
          }
          assert FieldsAgree(a[1..], b[1..], i - 1) && Decided(a[1..], b[1..], i - 1);
        }
      }
    } else {
      assert FieldsAgree(a, b, 0);
      assert a == [] && b != [] ==> Decided(a, b, 0);
    }
  }

  lemma FieldsComeBeforeRelease(a: seq<Item>)
    requires a != [] && a[0] != Released
    ensures ItemsLess(a, [Released]) && !ItemsLess([Released], a)
  {
  }

  /** On versions whose prerelease identifiers are lower-case the keys compare
      exactly as the standard orders the versions. */
  lemma KeysFollowPrecedence(v: Version, w: Version)
    requires KeyOfVersion(v).Some? && KeyOfVersion(w).Some?
    requires v.prerelease.Some? ==> v.prerelease.value != [] && AllLower(v.prerelease.value)
    requires w.prerelease.Some? ==> w.prerelease.value != [] && AllLower(w.prerelease.value)
    ensures Less(KeyOfVersion(v).value, KeyOfVersion(w).value) <==> Precedes(v, w)
  {
    var a, b := KeyOfVersion(v).value.prerelease, KeyOfVersion(w).value.prerelease;
    match (v.prerelease, w.prerelease)
    case (Some(x), Some(y)) => FieldsAreItems(x, y);
    case (Some(x), None) => FieldsComeBeforeRelease(a);
    case (None, Some(y)) => FieldsComeBeforeRelease(b);
    case (None, None) =>
  }

  lemma CutIsLower(s: string, c: char)
    requires LowerCase(s)
    ensures LowerCase(Cut(s, c).0) && (Cut(s, c).1.Some? ==> LowerCase(Cut(s, c).1.value))
  {
    var (head, tail) := Cut(s, c);
    forall i | 0 <= i < |head| ensures !('A' <= head[i] <= 'Z') { assert s[i] == head[i]; }
    if tail.Some? {
      forall i | 0 <= i < |tail.value| ensures !('A' <= tail.value[i] <= 'Z') {
        assert s[|head| + 1 + i] == tail.value[i];
      }
    }
  }

  lemma {:induction false} FieldsAreLower(s: string)
    requires LowerCase(s)
    ensures AllLower(Fields(s))
    decreases |s|
  {
    CutIsLower(s, '.');
    if Cut(s, '.').1.Some? { FieldsAreLower(Cut(s, '.').1.value); }
  }

  /** The same for version texts: the comparison every promotion relies on is the
      precedence of the standard, wherever no upper-case letter occurs. */
  lemma ComparisonIsPrecedence(a: string, b: string)
    requires KeyOf(a).Some? && KeyOf(b).Some? && LowerCase(a) && LowerCase(b)
    ensures Less(KeyOf(a).value, KeyOf(b).value) <==> Precedes(Parsed(a).value, Parsed(b).value)
  {
    PrereleaseIsLower(a);
    PrereleaseIsLower(b);
    KeysFollowPrecedence(Parsed(a).value, Parsed(b).value);
  }

  lemma PrereleaseIsLower(text: string)
    requires Parsed(text).Some? && LowerCase(text)
    ensures Parsed(text).value.prerelease.Some? ==>
              Parsed(text).value.prerelease.value != [] && AllLower(Parsed(text).value.prerelease.value)
  {
    CutIsLower(text, '+');
    CutIsLower(Cut(text, '+').0, '-');
    if Cut(Cut(text, '+').0, '-').1.Some? { FieldsAreLower(Cut(Cut(text, '+').0, '-').1.value); }
  }

  // ---------------------------------------------------------------------
  // Upper case
  // ---------------------------------------------------------------------

  function FoldedFields(fields: seq<string>): (r: seq<string>)
    ensures |r| == |fields| && forall i :: 0 <= i < |r| ==> r[i] == Folded(fields[i])
  {
    seq(|fields|, i requires 0 <= i < |fields| => Folded(fields[i]))
  }

  function FoldedVersion(v: Version): Version {
    v.(prerelease := if v.prerelease.Some? then Some(FoldedFields(v.prerelease.value)) else None)
  }

  lemma FoldedField(field: string)
    ensures LowerCase(Folded(field)) && Folded(Folded(field)) == Folded(field)
    ensures IsDecimal(Folded(field)) <==> IsDecimal(field)
    ensures IsDecimal(field) ==> Folded(field) == field
    ensures IsIdentifier(Folded(field)) <==> IsIdentifier(field)
  {
    var lower := Folded(field);
    assert forall i :: 0 <= i < |field| ==>
        (IsDigit(lower[i]) <==> IsDigit(field[i])) && (IsDigit(field[i]) ==> lower[i] == field[i]);
    assert forall i :: 0 <= i < |field| ==>
        (IsLetter(lower[i]) <==> IsLetter(field[i])) && (lower[i] == '-' <==> field[i] == '-');
  }

  /** A version and its folding have one key. */
  lemma FoldedKey(v: Version)
    ensures KeyOfVersion(FoldedVersion(v)) == KeyOfVersion(v)
  {
    if v.prerelease.Some? {
      var fields := v.prerelease.value;
      forall i | 0 <= i < |fields|
        ensures ItemOf(Folded(fields[i])) == ItemOf(fields[i])
        ensures (LeadingZero(Folded(fields[i])) <==> LeadingZero(fields[i]))
      {
        FoldedField(fields[i]);
      }
      assert forall i :: 0 <= i < |fields| ==> FoldedFields(fields)[i] == Folded(fields[i]);
      assert Items(FoldedFields(fields)) == Items(fields);
    }
  }

  /** Whatever their case, the keys of versions compare exactly as the standard
      orders the versions with their prerelease identifiers in lower case. */
  lemma KeysFollowFoldedPrecedence(v: Version, w: Version)
    requires KeyOfVersion(v).Some? && KeyOfVersion(w).Some?
    requires (v.prerelease.Some? ==> v.prerelease.value != []) && (w.prerelease.Some? ==> w.prerelease.value != [])
    ensures Less(KeyOfVersion(v).value, KeyOfVersion(w).value) <==> Precedes(FoldedVersion(v), FoldedVersion(w))
  {
    FoldedKey(v);
    FoldedKey(w);
    forall field: string ensures LowerCase(Folded(field)) { FoldedField(field); }
    KeysFollowPrecedence(FoldedVersion(v), FoldedVersion(w));
  }

  lemma {:induction false} UpperComesFirst(s: string)
    requires !LowerCase(s)
    ensures TextLess(s, Folded(s))
  {
    if !('A' <= s[0] <= 'Z') {
      assert !LowerCase(s[1..]) by {
        var i :| 0 <= i < |s| && 'A' <= s[i] <= 'Z';
        assert s[1..][i - 1] == s[i];
      }
      UpperComesFirst(s[1..]);
      assert Folded(s)[1..] == Folded(s[1..]);
    }
  }

  /** The first field that has an upper-case letter. */
  ghost function FirstUpper(fields: seq<string>): (r: nat)
    requires !AllLower(fields)
    ensures r < |fields| && !LowerCase(fields[r]) && AllLower(fields[..r])
  {
    if !LowerCase(fields[0]) then 0
    else
      assert !AllLower(fields[1..]) by {
        var i :| 0 <= i < |fields| && !LowerCase(fields[i]);
        assert fields[1..][i - 1] == fields[i];
      }
      1 + FirstUpper(fields[1..])
  }

  lemma UpperFieldsComeFirst(fields: seq<string>)
    requires !AllLower(fields)
    ensures FieldsPrecede(fields, FoldedFields(fields))
  {
    var i, folded := FirstUpper(fields), FoldedFields(fields);
    forall j | 0 <= j < i ensures SamePrecedence(fields[j], folded[j]) {
      assert LowerCase(fields[..i][j]);
      LowerIsFolded(fields[j]);
    }
    FoldedField(fields[i]);
    UpperComesFirst(fields[i]);
    TextIsAscii(fields[i], folded[i]);
    assert FieldsAgree(fields, folded, i) && Decided(fields, folded, i);
  }

  lemma {:induction false} CutOfFolded(s: string, c: char)
    requires c == '.' || c == '-' || c == '+'
    ensures Cut(Folded(s), c).0 == Folded(Cut(s, c).0)
    ensures Cut(Folded(s), c).1 == if Cut(s, c).1.Some? then Some(Folded(Cut(s, c).1.value)) else None
  {
    if s != "" {
      assert Folded(s)[1..] == Folded(s[1..]);
      if s[0] != c { CutOfFolded(s[1..], c); }
    }
  }

  lemma {:induction false} FieldsOfFolded(s: string)
    ensures Fields(Folded(s)) == FoldedFields(Fields(s))
    decreases |s|
  {
    CutOfFolded(s, '.');
    if Cut(s, '.').1.Some? { FieldsOfFolded(Cut(s, '.').1.value); }
  }

  lemma IdentifiersOfFolded(fields: seq<string>)
    ensures AllIdentifiers(FoldedFields(fields)) <==> AllIdentifiers(fields)
  {
    forall i | 0 <= i < |fields| ensures IsIdentifier(FoldedFields(fields)[i]) <==> IsIdentifier(fields[i]) {
      FoldedField(fields[i]);
    }
  }

  lemma ParsedOfFolded(text: string)
    ensures Parsed(Folded(text)) == match Parsed(text) case Some(v) => Some(FoldedVersion(v)) case None => None
  {
    var (front, build) := Cut(text, '+');
    var (core, prerelease) := Cut(front, '-');
    CutOfFolded(text, '+');
    CutOfFolded(front, '-');
    FieldsOfFolded(core);
    if build.Some? { FieldsOfFolded(build.value); IdentifiersOfFolded(Fields(build.value)); }
    if prerelease.Some? { FieldsOfFolded(prerelease.value); IdentifiersOfFolded(Fields(prerelease.value)); }
    forall i | 0 <= i < |Fields(core)|
      ensures (IsNumeral(Folded(Fields(core)[i])) <==> IsNumeral(Fields(core)[i]))
           && (IsNumeral(Fields(core)[i]) ==> Folded(Fields(core)[i]) == Fields(core)[i])
    {
      FoldedField(Fields(core)[i]);
    }
  }

  /** The comparison every promotion relies on, on any two version texts: it is the
      precedence of the standard between their lower-case forms. */
  lemma ComparisonIsFoldedPrecedence(a: string, b: string)
    requires KeyOf(a).Some? && KeyOf(b).Some?
    ensures Parsed(Folded(a)).Some? && Parsed(Folded(b)).Some?
    ensures Less(KeyOf(a).value, KeyOf(b).value) <==> Precedes(Parsed(Folded(a)).value, Parsed(Folded(b)).value)
  {
    ParsedOfFolded(a);
    ParsedOfFolded(b);
    KeysFollowFoldedPrecedence(Parsed(a).value, Parsed(b).value);
  }

  /** Upper case is folded away, which the standard does not do: every version text
      with an upper-case letter in a prerelease identifier has the key of its lower-case
      form, although it precedes that form. */
  lemma UpperCaseIsFolded(text: string)
    requires KeyOf(text).Some? && Parsed(text).value.prerelease.Some? && !AllLower(Parsed(text).value.prerelease.value)
    ensures KeyOf(Folded(text)) == KeyOf(text)
    ensures Precedes(Parsed(text).value, Parsed(Folded(text)).value)
  {
    ParsedOfFolded(text);
    FoldedKey(Parsed(text).value);
    UpperFieldsComeFirst(Parsed(text).value.prerelease.value);
  }
}
