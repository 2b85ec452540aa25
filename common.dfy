// The pure helpers of lib/helper/common.ts: random codes, title case, names
// and slugs derived from e-mail addresses, the compact timestamp, name
// masking, age in whole years and the leading-digits reader behind every
// HTTP status the service derives from its custom codes.
module Common {
  import opened Wrappers
  import opened Decimal
  import opened Strings

  // ----- GenerateRandomNumber -----

  /**
   * A number of exactly `length` decimal digits. `random` is the value
   * `Math.random()` returned for this call, in [0, 1).
   */
  function GenerateRandomNumber(length: nat, random: real): (r: nat)
    requires length >= 1 && 0.0 <= random < 1.0
    ensures Pow10(length - 1) <= r <= Pow10(length) - 1
    ensures |NatToString(r)| == length
  {
    var min := Pow10(length - 1);
    var width := Pow10(length) - min;
    assert Pow10(length) == 10 * min;
    ScaledDraw(random, width);
    var r := (random * width as real).Floor + min;
    NatToStringLength(r, length);
    r
  }

  /** Scaling a draw from [0, 1) by `width` and flooring lands in [0, width). */
  lemma ScaledDraw(random: real, width: int)
    requires 0.0 <= random < 1.0 && width >= 1
    ensures 0 <= (random * width as real).Floor < width
  {
    var w := width as real;
    var x := random * w;
    assert x >= 0.0 by { assert random >= 0.0 && w >= 1.0; }
    assert w - x == (1.0 - random) * w;
    assert (1.0 - random) * w > 0.0 by { assert 1.0 - random > 0.0; }
    assert x.Floor as real <= x;
    assert x < x.Floor as real + 1.0;
  }

  // ----- ToCamelCase -----

  predicate IsAsciiUpper(c: char) { 'A' <= c <= 'Z' }
  predicate IsAsciiLower(c: char) { 'a' <= c <= 'z' }
  predicate IsAsciiLetter(c: char) { IsAsciiUpper(c) || IsAsciiLower(c) }

  /** `\w`: ASCII letters, digits and `_`. */
  predicate IsWordChar(c: char) { IsAsciiLetter(c) || IsDigit(c) || c == '_' }

  function UpperAscii(c: char): (u: char)
    ensures IsWordChar(u) <==> IsWordChar(c)
    ensures IsSpace(u) <==> IsSpace(c)
    ensures !IsAsciiLower(u)
  {
    if IsAsciiLower(c) then (c as int - 32) as char else c
  }

  function LowerAscii(c: char): (l: char)
    ensures IsWordChar(l) <==> IsWordChar(c)
    ensures IsSpace(l) <==> IsSpace(c)
    ensures !IsAsciiUpper(l)
  {
    if IsAsciiUpper(c) then (c as int + 32) as char else c
  }

  /**
   * `s.replace(/\w\S*\/g, t => t[0].toUpperCase() + t.substr(1).toLowerCase())`
   * scanned left to right; `inWord` says whether the scan is inside a match.
   */
  function TitleCase(s: string, inWord: bool): (r: string)
    ensures |r| == |s|
    ensures forall i :: 0 <= i < |s| && IsSpace(s[i]) ==> r[i] == s[i]
    ensures forall i :: 0 <= i < |s| ==> r[i] == UpperAscii(s[i]) || r[i] == LowerAscii(s[i])
  {
    if s == [] then [] else [TitleChar(s[0], inWord)] + TitleCase(s[1..], InWordAfter(s[0], inWord))
  }

  /** One step of the scan: white space is kept, a match starts upper and goes on lower, anything else is kept. */
  function TitleChar(c: char, inWord: bool): (r: char)
    ensures IsSpace(c) ==> r == c
    ensures r == UpperAscii(c) || r == LowerAscii(c)
  {
    if IsSpace(c) then c
    else if inWord then LowerAscii(c)
    else if IsWordChar(c) then UpperAscii(c)
    else c
  }

  /** Whether the scan is inside a match after `c`: a match starts at a word character and ends at white space. */
  function InWordAfter(c: char, inWord: bool): bool
  {
    !IsSpace(c) && (inWord || IsWordChar(c))
  }

  /** `ToCamelCase(str)`; `None` is `null`, which is falsy and returned as it is, like `""`. */
  function ToCamelCase(str: Option<string>): (r: Option<string>)
    ensures r.None? <==> str.None?
    ensures str.Some? ==> |r.value| == |str.value|
  {
    match str
    case None => None
    case Some(s) => if s == "" then Some(s) else Some(TitleCase(s, false))
  }

  /** `toLowerCase()` restricted to ASCII letters. */
  function LowerAll(s: string): (r: string)
    ensures |r| == |s| && forall i :: 0 <= i < |s| ==> r[i] == LowerAscii(s[i])
  {
    if s == [] then [] else [LowerAscii(s[0])] + LowerAll(s[1..])
  }

  /** Inside one match every character after the first is lower-cased. */
  lemma {:induction false} TitleCaseInWord(s: string)
    requires forall i :: 0 <= i < |s| ==> !IsSpace(s[i])
    ensures TitleCase(s, true) == LowerAll(s)
  {
    if s != [] {
      TitleCaseInWord(s[1..]);
    }
  }

  /** A word that starts with a word character is capitalised: first letter upper, the rest lower. */
  lemma TitleCaseWord(w: string)
    requires |w| >= 1 && IsWordChar(w[0])
    requires forall i :: 0 <= i < |w| ==> !IsSpace(w[i])
    ensures TitleCase(w, false) == [UpperAscii(w[0])] + LowerAll(w[1..])
  {
    TitleCaseInWord(w[1..]);
  }

  /** White space ends a match, so words are cased independently of each other. */
  lemma {:induction false} TitleCaseSpace(a: string, b: string, inWord: bool)
    ensures TitleCase(a + " " + b, inWord) == TitleCase(a, inWord) + " " + TitleCase(b, false)
  {
    if a == [] {
      assert a + " " + b == [' '] + b;
    } else {
      assert (a + " " + b)[1..] == a[1..] + " " + b;
      TitleCaseSpace(a[1..], b, InWordAfter(a[0], inWord));
    }
  }

  /** Title-casing twice is the same as title-casing once. */
  lemma {:induction false} TitleCaseIdempotent(s: string, inWord: bool)
    ensures TitleCase(TitleCase(s, inWord), inWord) == TitleCase(s, inWord)
  {
    if s != [] {
      var next := InWordAfter(s[0], inWord);
      TitleCaseIdempotent(s[1..], next);
      var r := TitleCase(s, inWord);
      assert r[1..] == TitleCase(s[1..], next);
    }
  }

  lemma ToCamelCaseIdempotent(str: Option<string>)
    ensures ToCamelCase(ToCamelCase(str)) == ToCamelCase(str)
  {
    if str.Some? && str.value != "" {
      TitleCaseIdempotent(str.value, false);
    }
  }

  // ----- CreateNameFromEmail -----

  /** The local part of the address with every character outside `[a-zA-Z]` turned into a space. */
  function CreateNameFromEmail(email: string): (name: string)
    ensures |name| == |FirstField(email, '@')|
    ensures forall i :: 0 <= i < |name| ==>
      name[i] == (if IsAsciiLetter(email[i]) then email[i] else ' ')
  {
    var local := FirstField(email, '@');
    seq(|local|, i requires 0 <= i < |local| => if IsAsciiLetter(local[i]) then local[i] else ' ')
  }

  /** The domain never shows in the name, and the name holds only letters and spaces. */
  lemma NameIgnoresDomain(local: string, d1: string, d2: string)
    requires '@' !in local
    ensures CreateNameFromEmail(local + "@" + d1) == CreateNameFromEmail(local + "@" + d2)
    ensures forall c :: c in CreateNameFromEmail(local + "@" + d1) ==> IsAsciiLetter(c) || c == ' '
  {
    SplitHeadOf(local, d1);
    SplitHeadOf(local, d2);
  }

  lemma SplitHeadOf(local: string, rest: string)
    requires '@' !in local
    ensures FirstField(local + "@" + rest, '@') == local
  {
    var s := local + "@" + rest;
    IndexOfAfter(local, '@', rest);
    assert s[..|local|] == local;
  }

  // ----- GetTimestamp / ConvertTimestampToDayjs -----

  /** A wall-clock reading with a 1-based month, as `Date`'s getters give it (after `getMonth() + 1`). */
  datatype DateTime = DateTime(year: nat, month: nat, day: nat, hours: nat, minutes: nat, seconds: nat)

  predicate ValidDateTime(d: DateTime)
  {
    1000 <= d.year <= 9999 && 1 <= d.month <= 12 && 1 <= d.day <= 31
    && d.hours < 24 && d.minutes < 60 && d.seconds < 60
  }

  /** `String(n).padStart(2, '0')`. */
  function Pad2(n: nat): (s: string)
    ensures AllDigits(s)
    ensures n < 100 ==> |s| == 2 && ParseDigits(s) == n
  {
    Pad2Facts(n);
    if n < 10 then "0" + NatToString(n) else NatToString(n)
  }

  lemma Pad2Facts(n: nat)
    ensures ParseDigits(NatToString(n)) == n
    ensures n < 10 ==> |NatToString(n)| == 1 && ParseDigits("0" + NatToString(n)) == n
    ensures 10 <= n < 100 ==> |NatToString(n)| == 2
  {
    ParseNatToString(n);
    ParseLeadingZero(NatToString(n));
    if 10 <= n < 100 {
      NatToStringLength(n, 2);
    }
  }

  /** `YYYYMMDDHHmmss` of the given reading (the year is not padded). */
  function GetTimestamp(d: DateTime): (t: string)
    ensures AllDigits(t)
    ensures ValidDateTime(d) ==> |t| == 14
  {
    YearDigits(d);
    NatToString(d.year) + Pad2(d.month) + Pad2(d.day) + Pad2(d.hours) + Pad2(d.minutes) + Pad2(d.seconds)
  }

  lemma YearDigits(d: DateTime)
    ensures ValidDateTime(d) ==> |NatToString(d.year)| == 4
  {
    if ValidDateTime(d) {
      Pow10Small();
      NatToStringLength(d.year, 4);
    }
  }

  /** `ConvertTimestampToDayjs`: reads the fourteen digits back into a reading; `None` is an invalid date. */
  function ConvertTimestampToDayjs(t: string): (r: Option<DateTime>)
    ensures r.Some? <==> |t| == 14 && AllDigits(t)
  {
    if |t| == 14 && AllDigits(t) then
      Some(DateTime(ParseDigits(t[0..4]), ParseDigits(t[4..6]), ParseDigits(t[6..8]),
                    ParseDigits(t[8..10]), ParseDigits(t[10..12]), ParseDigits(t[12..14])))
    else None
  }

  /** The timestamp a valid reading is written as reads back as that reading. */
  lemma TimestampRoundTrip(d: DateTime)
    requires ValidDateTime(d)
    ensures ConvertTimestampToDayjs(GetTimestamp(d)) == Some(d)
  {
    YearDigits(d);
    ParseNatToString(d.year);
    var y, mo, da, h, mi, se := NatToString(d.year), Pad2(d.month), Pad2(d.day), Pad2(d.hours), Pad2(d.minutes), Pad2(d.seconds);
    var t := GetTimestamp(d);
    assert t == y + mo + da + h + mi + se;
    assert t[0..4] == y;
    assert t[4..6] == mo;
    assert t[6..8] == da;
    assert t[8..10] == h;
    assert t[10..12] == mi;
    assert t[12..14] == se;
  }

  /** Digits only: a timestamp never contains the `|` that separates signed fields. */
  lemma TimestampHasNoBar(d: DateTime)
    ensures '|' !in GetTimestamp(d)
  {
    assert AllDigits(GetTimestamp(d));
  }

  // ----- AnonymizeString -----

  function Stars(n: nat): (s: string)
    ensures |s| == n && forall i :: 0 <= i < n ==> s[i] == '*'
  {
    if n == 0 then "" else "*" + Stars(n - 1)
  }

  /** Keeps the first and last character of a word longer than two and masks the rest. */
  function AnonymizeWord(w: string): (r: string)
    ensures |r| == |w|
    ensures |w| <= 2 ==> r == w
    ensures |w| > 2 ==> r[0] == w[0] && r[|w| - 1] == w[|w| - 1]
    ensures |w| > 2 ==> forall i :: 0 < i < |w| - 1 ==> r[i] == '*'
  {
    if |w| <= 2 then w else [w[0]] + Stars(|w| - 2) + [w[|w| - 1]]
  }

  /** `AnonymizeString`: the masked first word and the masked last word, joined by one space. */
  function AnonymizeString(name: string): (r: string)
    ensures r == AnonymizeWord(FirstField(name, ' ')) + " " + AnonymizeWord(LastField(name, ' '))
  {
    var words := Split(name, ' ');
    SplitEnds(name);
    AnonymizeWord(words[0]) + " " + AnonymizeWord(words[|words| - 1])
  }

  lemma SplitEnds(name: string)
    ensures Split(name, ' ')[0] == FirstField(name, ' ')
    ensures Split(name, ' ')[|Split(name, ' ')| - 1] == LastField(name, ' ')
  {
    LastOfSplit(name, ' ');
  }

  /** Words between the first and the last are dropped; a one-word name shows twice. */
  lemma AnonymizeShape(name: string)
    ensures |AnonymizeString(name)| == |FirstField(name, ' ')| + 1 + |LastField(name, ' ')|
    ensures ' ' !in name ==> AnonymizeString(name) == AnonymizeWord(name) + " " + AnonymizeWord(name)
  {
  }

  // ----- CreateSlug -----

  const MaxSlugLength: nat := 255

  predicate IsSlugChar(c: char) { IsAsciiLower(c) || IsDigit(c) || c == '-' }

  /** What a slug looks like: lower-case letters, digits and single dashes, at most 255 characters. */
  predicate IsSlug(s: string)
  {
    && |s| <= MaxSlugLength
    && (forall i :: 0 <= i < |s| ==> IsSlugChar(s[i]))
    && (forall i :: 0 <= i < |s| - 1 ==> !(s[i] == '-' && s[i + 1] == '-'))
  }

  /** `replace(/[^a-z0-9\s-]/g, '')`. */
  function KeepSlugSource(s: string): (r: string)
    ensures forall i :: 0 <= i < |r| ==> IsSlugChar(r[i]) || IsSpace(r[i])
    ensures (forall i :: 0 <= i < |s| ==> IsSlugChar(s[i]) || IsSpace(s[i])) ==> r == s
  {
    if s == [] then []
    else if IsSlugChar(s[0]) || IsSpace(s[0]) then [s[0]] + KeepSlugSource(s[1..])
    else KeepSlugSource(s[1..])
  }

  /** `replace(/-+$/, '')`. */
  function StripTrailingDashes(s: string): (r: string)
    ensures |r| <= |s| && r == s[..|r|]
    ensures r == [] || r[|r| - 1] != '-'
  {
    if s != [] && s[|s| - 1] == '-' then StripTrailingDashes(s[..|s| - 1]) else s
  }

  /** The chain of cleanups before the length limit. */
  function SlugBody(str: string): string
  {
    var kept := KeepSlugSource(LowerAll(str));
    CollapseRuns(CollapseRuns(Trim(kept), SpaceChars, '-'), {'-'}, '-')
  }

  /** `CreateSlug(str)`. */
  function CreateSlug(str: string): (slug: string)
    ensures IsSlug(slug)
    ensures |SlugBody(str)| <= MaxSlugLength ==> slug == SlugBody(str)
    ensures |SlugBody(str)| > MaxSlugLength ==> slug == StripTrailingDashes(SlugBody(str)[..MaxSlugLength])
  {
    var body := SlugBody(str);
    SlugBodyShape(str);
    if |body| > MaxSlugLength then
      CutSlug(body);
      StripTrailingDashes(body[..MaxSlugLength])
    else body
  }

  lemma CutSlug(body: string)
    requires |body| > MaxSlugLength
    requires forall i :: 0 <= i < |body| ==> IsSlugChar(body[i])
    requires forall i :: 0 <= i < |body| - 1 ==> !(body[i] == '-' && body[i + 1] == '-')
    ensures IsSlug(StripTrailingDashes(body[..MaxSlugLength]))
  {
    var cut := StripTrailingDashes(body[..MaxSlugLength]);
    assert forall i :: 0 <= i < |cut| ==> cut[i] == body[i];
  }

  lemma SlugBodyShape(str: string)
    ensures forall i :: 0 <= i < |SlugBody(str)| ==> IsSlugChar(SlugBody(str)[i])
    ensures forall i :: 0 <= i < |SlugBody(str)| - 1 ==> !(SlugBody(str)[i] == '-' && SlugBody(str)[i + 1] == '-')
  {
    var kept := KeepSlugSource(LowerAll(str));
    var body := KeptShape(kept);
    assert SlugBody(str) == body;
  }

  /** The body built from slug characters and white space is made of slug characters, with no double dash. */
  lemma KeptShape(kept: string) returns (body: string)
    requires forall i :: 0 <= i < |kept| ==> IsSlugChar(kept[i]) || IsSpace(kept[i])
    ensures body == CollapseRuns(CollapseRuns(Trim(kept), SpaceChars, '-'), {'-'}, '-')
    ensures forall i :: 0 <= i < |body| ==> IsSlugChar(body[i])
    ensures forall i :: 0 <= i < |body| - 1 ==> !(body[i] == '-' && body[i + 1] == '-')
  {
    forall c | c in kept ensures IsSlugChar(c) || IsSpace(c) {
      var i :| 0 <= i < |kept| && kept[i] == c;
    }
    TrimKeeps(kept);
    var dashed := DashedChars(Trim(kept));
    body := CollapsedDashes(dashed);
  }

  /** Turning the white-space runs of slug characters and white space into dashes leaves slug characters only. */
  lemma DashedChars(trimmed: string) returns (dashed: string)
    requires forall c :: c in trimmed ==> IsSlugChar(c) || IsSpace(c)
    ensures dashed == CollapseRuns(trimmed, SpaceChars, '-')
    ensures forall c :: c in dashed ==> IsSlugChar(c)
  {
    dashed := CollapseRuns(trimmed, SpaceChars, '-');
    CollapseRunsChars(trimmed, SpaceChars, '-');
  }

  /** Collapsing the dash runs of slug characters gives slug characters with no double dash. */
  lemma CollapsedDashes(dashed: string) returns (body: string)
    requires forall c :: c in dashed ==> IsSlugChar(c)
    ensures body == CollapseRuns(dashed, {'-'}, '-')
    ensures forall i :: 0 <= i < |body| ==> IsSlugChar(body[i])
    ensures forall i :: 0 <= i < |body| - 1 ==> !(body[i] == '-' && body[i + 1] == '-')
  {
    body := CollapseRuns(dashed, {'-'}, '-');
    CollapseRunsChars(dashed, {'-'}, '-');
    CollapseRunsNoDouble(dashed, {'-'}, '-');
    assert forall i :: 0 <= i < |body| ==> body[i] in body;
  }

  /** A slug is its own slug, hence slugging twice is slugging once. */
  lemma SlugFixedPoint(s: string)
    requires IsSlug(s)
    ensures CreateSlug(s) == s
  {
    SlugHasNoSpace(s);
    assert LowerAll(s) == s;
    assert KeepSlugSource(s) == s;
    TrimNoSpace(s);
    CollapseRunsIdentity(s, SpaceChars, '-');
    CollapseRunsIdentity(s, {'-'}, '-');
    assert SlugBody(s) == s;
  }

  lemma SlugHasNoSpace(s: string)
    requires forall i :: 0 <= i < |s| ==> IsSlugChar(s[i])
    ensures forall i :: 0 <= i < |s| ==> !IsSpace(s[i]) && s[i] !in SpaceChars && LowerAscii(s[i]) == s[i]
  {
    forall i | 0 <= i < |s|
      ensures !IsSpace(s[i]) && s[i] !in SpaceChars && LowerAscii(s[i]) == s[i]
    {
      SlugCharNotSpace(s[i]);
    }
  }

  lemma SlugCharNotSpace(c: char)
    requires IsSlugChar(c)
    ensures !IsSpace(c) && c !in SpaceChars && LowerAscii(c) == c
  {
  }

  lemma SlugIdempotent(str: string)
    ensures CreateSlug(CreateSlug(str)) == CreateSlug(str)
  {
    SlugFixedPoint(CreateSlug(str));
  }

  // ----- calculateAge -----

  /** A calendar date (year, month, day of month); months only need to compare in calendar order. */
  datatype Date = Date(year: int, month: int, day: int)

  /** `a` comes strictly before `b` in the calendar. */
  predicate Before(a: Date, b: Date)
  {
    a.year < b.year || (a.year == b.year && (a.month < b.month || (a.month == b.month && a.day < b.day)))
  }

  /** `calculateAge`: the number of birthdays that have come by `today`. */
  function CalculateAge(birth: Date, today: Date): (age: int)
    ensures !Before(today, birth.(year := birth.year + age))
    ensures Before(today, birth.(year := birth.year + age + 1))
  {
    var age := today.year - birth.year;
    if today.month < birth.month || (today.month == birth.month && today.day < birth.day) then age - 1 else age
  }

  // ----- substringNumber -----

  /**
   * `parseInt(String(n).substring(0, k))`: the number the leading `k` digits
   * of `n` spell; `None` is the NaN that an empty prefix gives.
   */
  function SubstringNumber(n: nat, k: nat): (r: Option<nat>)
    ensures r.None? <==> k == 0
    ensures k >= 1 && n < Pow10(k) ==> r == Some(n)
    ensures k >= 1 && n >= Pow10(k) ==>
              && |NatToString(n)| > k
              && Pow10(|NatToString(n)| - k) * r.value <= n < Pow10(|NatToString(n)| - k) * (r.value + 1)
    ensures k >= 1 && n >= 1 ==> r.value >= 1
  {
    if k == 0 then None
    else
      var digits := NatToString(n);
      var m := if k <= |digits| then k else |digits|;
      LeadingDigits(n, k);
      Some(ParseDigits(digits[..m]))
  }

  lemma LeadingDigits(n: nat, k: nat)
    requires k >= 1
    ensures var digits := NatToString(n);
      var m := if k <= |digits| then k else |digits|;
      var v := ParseDigits(digits[..m]);
      && (n < Pow10(k) ==> v == n)
      && (n >= Pow10(k) ==> |digits| > k && Pow10(|digits| - k) * v <= n < Pow10(|digits| - k) * (v + 1))
      && (n >= 1 ==> v >= 1)
  {
    var digits := NatToString(n);
    var m := if k <= |digits| then k else |digits|;
    ParseNatToString(n);
    PrefixValue(digits, m);
    if n < Pow10(k) {
      NatToStringShort(n, k);
      assert digits[..m] == digits;
    } else {
      NatToStringBounds(n);
      if |digits| <= k {
        Pow10Monotone(|digits|, k);
      }
    }
    if n >= 1 && |digits| > 1 {
      assert digits[..m][0] == digits[0];
      ParseDigitsPositive(digits[..m]);
    }
  }
}
