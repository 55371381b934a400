/** The rules `uploadContract` applies to a lower-cased file name
    (src/store/contractStore.ts:25-105) and to the drawn key terms
    (src/store/contractStore.ts:108-127), stated as specifications: keyword
    tables looked up first-match, the regular expressions the code calls, and
    the risk rule. The store's method that applies them step by step is
    proved against these definitions. */
module Metadata {
  import opened Text
  import opened Rules
  import opened Domain

  // ---------------------------------------------------------------------
  // The regular expressions

  /** The three shapes of regular expression the heuristics use:
      `/kw\s*(\d+)/` and `/kw(\d+)/` (capturing the digits) and `/20\d{2}/`
      (capturing the whole match). */
  datatype Pattern =
    | NumberAfter(keyword: string, spaces: bool)
    | YearToken

  /** `/20\d{2}/` matches at index `i` of `s`: "20" and then two digits. */
  predicate YearAt(s: string, i: nat)
  {
    i + 4 <= |s| && s[i..i + 2] == "20" && IsDigit(s[i + 2]) && IsDigit(s[i + 3])
  }

  /** The capture of `p` when a match starts at index `i` of `s`. The greedy
      `\s*` and `\d+` never need to backtrack: white space and digits are
      disjoint, so a match exists iff a digit follows the longest white-space
      run, and the capture is the longest digit run there. */
  function MatchAt(s: string, p: Pattern, i: nat): Option<string>
    requires i <= |s|
  {
    match p
    case NumberAfter(kw, spaces) =>
      if OccursAt(s, kw, i) then NumberCapture(s[i + |kw|..], spaces) else None
    case YearToken =>
      if YearAt(s, i) then Some(s[i..i + 4]) else None
  }

  /** What `\s*(\d+)` (or `(\d+)` without `spaces`) captures at the front of `rest`. */
  function NumberCapture(rest: string, spaces: bool): Option<string>
  {
    var afterSpaces := if spaces then TrimStart(rest) else rest;
    var digits := DigitRun(afterSpaces);
    if digits == [] then None else Some(digits)
  }

  /** The leftmost index at or after `from` where `p` matches. */
  function FindFrom(s: string, p: Pattern, from: nat): (r: Option<nat>)
    requires from <= |s| + 1
    ensures r.Some? ==> from <= r.value <= |s| && MatchAt(s, p, r.value).Some?
    ensures r.Some? ==> forall j :: from <= j < r.value ==> MatchAt(s, p, j).None?
    ensures r.None? <==> forall j :: from <= j <= |s| ==> MatchAt(s, p, j).None?
    decreases |s| + 1 - from
  {
    if from > |s| then None
    else if MatchAt(s, p, from).Some? then Some(from)
    else FindFrom(s, p, from + 1)
  }

  /** `s.match(p)`: the capture of the leftmost match, if there is one. */
  function Search(s: string, p: Pattern): Option<string>
  {
    match FindFrom(s, p, 0)
    case Some(i) => MatchAt(s, p, i)
    case None => None
  }

  /** A match exists as soon as the pattern matches somewhere. */
  lemma SearchFinds(s: string, p: Pattern, i: nat)
    requires i <= |s| && MatchAt(s, p, i).Some?
    ensures Search(s, p).Some?
  {
  }

  /** A match with no match before it is the one `match` returns. */
  lemma SearchLeftmost(s: string, p: Pattern, i: nat)
    requires i <= |s| && MatchAt(s, p, i).Some?
    requires forall j :: 0 <= j < i ==> MatchAt(s, p, j).None?
    ensures FindFrom(s, p, 0) == Some(i)
    ensures Search(s, p) == MatchAt(s, p, i)
  {
  }

  /** The year token is "20" followed by two digits. */
  lemma YearTokenShape(s: string)
    requires Search(s, YearToken).Some?
    ensures var y := Search(s, YearToken).value;
            |y| == 4 && y[..2] == "20" && IsDigit(y[2]) && IsDigit(y[3])
  {
    var i := FindFrom(s, YearToken, 0).value;
    assert s[i..i + 4][..2] == s[i..i + 2];
  }

  /** A keyword, white space and then a run of digits that ends there is a
      match of `/kw\s*(\d+)/` at the keyword, capturing exactly those digits,
      whatever comes before the keyword. Leading zeros are kept. */
  lemma NumberAfterMatch(pre: string, kw: string, ws: string, ds: string, rest: string)
    requires AllSpace(ws)
    requires ds != [] && AllDigits(ds)
    requires rest == [] || !IsDigit(rest[0])
    ensures var s := pre + kw + ws + ds + rest;
      |pre| <= |s| && MatchAt(s, NumberAfter(kw, true), |pre|) == Some(ds)
  {
    var s := pre + kw + ws + ds + rest;
    var tail := ws + (ds + rest);
    assert s == (pre + kw) + tail;
    assert s[|pre|..|pre| + |kw|] == kw;
    assert s[|pre| + |kw|..] == tail;
    assert OccursAt(s, kw, |pre|);
    CaptureAfterSpaces(ws, ds, rest);
    MatchAtOfParts(s, kw, |pre|, tail, ds);
  }

  /** White space and then a digit run that ends there: `\s*(\d+)` captures the run. */
  lemma CaptureAfterSpaces(ws: string, ds: string, rest: string)
    requires AllSpace(ws)
    requires ds != [] && AllDigits(ds)
    requires rest == [] || !IsDigit(rest[0])
    ensures NumberCapture(ws + (ds + rest), true) == Some(ds)
  {
    assert (ds + rest)[0] == ds[0];
    TrimStartOfSpaces(ws, ds + rest);
    DigitRunOfDigits(ds, rest);
  }

  /** The match at `i` once the keyword there and the capture after it are known. */
  lemma MatchAtOfParts(s: string, kw: string, i: nat, tail: string, digits: string)
    requires OccursAt(s, kw, i) && s[i + |kw|..] == tail
    requires NumberCapture(tail, true) == Some(digits)
    ensures MatchAt(s, NumberAfter(kw, true), i) == Some(digits)
  {
  }

  // ---------------------------------------------------------------------
  // Brand, series and model

  datatype Family = AppleFamily | RealmeFamily | SamsungFamily | OnePlusFamily | XiaomiFamily | UnknownFamily

  /** The brand tests of lines 32, 47, 56, 73 and 82, in their order. */
  const FamilyRules: seq<Rule<Family>> := [
    Rule(["iphone"], AppleFamily),
    Rule(["realme"], RealmeFamily),
    Rule(["samsung", "galaxy"], SamsungFamily),
    Rule(["oneplus"], OnePlusFamily),
    Rule(["xiaomi", "redmi"], XiaomiFamily)
  ]

  function FamilyOf(f: string): Family
  {
    Lookup(FamilyRules, f, UnknownFamily)
  }

  function BrandName(family: Family, f: string): string
  {
    match family
    case AppleFamily => "Apple"
    case RealmeFamily => "Realme"
    case SamsungFamily => "Samsung"
    case OnePlusFamily => "OnePlus"
    case XiaomiFamily => if Contains(f, "redmi") then "Redmi" else "Xiaomi"
    case UnknownFamily => "Unknown"
  }

  /** How a series label is obtained: a keyword's number read by a regular
      expression and put behind a label, or a fixed name. */
  datatype SeriesRule = Numbered(keyword: string, spaces: bool, prefix: string) | Fixed(name: string)

  /** A brand's series tests (in order) with their fallback, and its model
      tests (in order); a model falls back to "Standard". */
  datatype Profile = Profile(seriesRules: seq<Rule<SeriesRule>>, seriesDefault: SeriesRule, modelRules: seq<Rule<string>>)

  function ProfileOf(family: Family): Profile
  {
    match family
    case AppleFamily =>
      Profile([], Numbered("iphone", true, "iPhone "),
               [Rule(["pro max"], "Pro Max"), Rule(["pro"], "Pro"), Rule(["plus"], "Plus")])
    case RealmeFamily =>
      Profile([], Numbered("realme", true, "Realme "), [Rule(["pro"], "Pro+")])
    case SamsungFamily =>
      Profile([Rule(["s2"], Numbered("s", false, "Galaxy S")), Rule(["note"], Fixed("Galaxy Note"))],
              Fixed("Galaxy"),
              [Rule(["ultra"], "Ultra"), Rule(["plus"], "Plus")])
    case OnePlusFamily =>
      Profile([], Numbered("oneplus", true, "OnePlus "), [Rule(["pro"], "Pro")])
    case XiaomiFamily =>
      Profile([Rule(["note"], Fixed("Note Series")), Rule(["mi"], Numbered("mi", true, "Mi "))],
              Fixed("Unknown"), [])
    case UnknownFamily =>
      Profile([], Fixed("Unknown"), [])
  }

  function ResolveSeries(rule: SeriesRule, f: string): string
  {
    match rule
    case Fixed(name) => name
    case Numbered(kw, spaces, prefix) =>
      match Search(f, NumberAfter(kw, spaces))
      case Some(digits) => prefix + digits
      case None => "Unknown"
  }

  function SeriesOf(family: Family, f: string): string
  {
    var profile := ProfileOf(family);
    ResolveSeries(Lookup(profile.seriesRules, f, profile.seriesDefault), f)
  }

  function ModelOf(family: Family, f: string): string
  {
    Lookup(ProfileOf(family).modelRules, f, "Standard")
  }

  // ---------------------------------------------------------------------
  // Document type and version

  /** The document-type tests of lines 95-101, in order; "commission" is the default. */
  const DocumentRules: seq<Rule<DocumentType>> := [
    Rule(["commission"], Commission),
    Rule(["service"], Service),
    Rule(["license", "distribution"], License)
  ]

  function DocumentTypeOf(f: string): DocumentType
  {
    Lookup(DocumentRules, f, Commission)
  }

  function VersionOf(f: string): string
  {
    match Search(f, YearToken)
    case Some(year) => year + ".1"
    case None => "2025.1"
  }

  datatype FileMetadata = FileMetadata(
    brand: string, series: string, model: string, documentType: DocumentType, version: string)

  /** Everything the upload infers from a lower-cased file name. */
  function MetadataOf(f: string): FileMetadata
  {
    var family := FamilyOf(f);
    FileMetadata(BrandName(family, f), SeriesOf(family, f), ModelOf(family, f), DocumentTypeOf(f), VersionOf(f))
  }

  // ---------------------------------------------------------------------
  // The tables unrolled into the if/else-if chains of the code

  /** The brand tests of lines 32-92 as the chain the code writes. */
  lemma FamilyChain(f: string)
    ensures FamilyOf(f) ==
      if Contains(f, "iphone") then AppleFamily
      else if Contains(f, "realme") then RealmeFamily
      else if Contains(f, "samsung") || Contains(f, "galaxy") then SamsungFamily
      else if Contains(f, "oneplus") then OnePlusFamily
      else if Contains(f, "xiaomi") || Contains(f, "redmi") then XiaomiFamily
      else UnknownFamily
  {
    var r0, r1, r2, r3, r4 := FamilyRules[0], FamilyRules[1], FamilyRules[2], FamilyRules[3], FamilyRules[4];
    assert FamilyRules == [r0, r1, r2, r3, r4];
    Lookup5(r0, r1, r2, r3, r4, f, UnknownFamily);
    Lookup2(r3, r4, f, UnknownFamily);
    Lookup1(r4, f, UnknownFamily);
    HitsOne("iphone", AppleFamily, f);
    HitsOne("realme", RealmeFamily, f);
    HitsTwo("samsung", "galaxy", SamsungFamily, f);
    HitsOne("oneplus", OnePlusFamily, f);
    HitsTwo("xiaomi", "redmi", XiaomiFamily, f);
  }

  /** The model tests of each brand (lines 40-46, 53-55, 68-72, 79-81) as chains. */
  lemma ModelChain(family: Family, f: string)
    ensures ModelOf(family, f) ==
      match family
      case AppleFamily =>
        if Contains(f, "pro max") then "Pro Max"
        else if Contains(f, "pro") then "Pro"
        else if Contains(f, "plus") then "Plus"
        else "Standard"
      case RealmeFamily => if Contains(f, "pro") then "Pro+" else "Standard"
      case SamsungFamily =>
        if Contains(f, "ultra") then "Ultra"
        else if Contains(f, "plus") then "Plus"
        else "Standard"
      case OnePlusFamily => if Contains(f, "pro") then "Pro" else "Standard"
      case _ => "Standard"
  {
    match family {
      case AppleFamily =>
        Lookup3(Rule(["pro max"], "Pro Max"), Rule(["pro"], "Pro"), Rule(["plus"], "Plus"), f, "Standard");
        Lookup2(Rule(["pro"], "Pro"), Rule(["plus"], "Plus"), f, "Standard");
        Lookup1(Rule(["plus"], "Plus"), f, "Standard");
        HitsOne("pro max", "Pro Max", f);
        HitsOne("pro", "Pro", f);
        HitsOne("plus", "Plus", f);
      case RealmeFamily =>
        Lookup1(Rule(["pro"], "Pro+"), f, "Standard");
        HitsOne("pro", "Pro+", f);
      case SamsungFamily =>
        Lookup2(Rule(["ultra"], "Ultra"), Rule(["plus"], "Plus"), f, "Standard");
        Lookup1(Rule(["plus"], "Plus"), f, "Standard");
        HitsOne("ultra", "Ultra", f);
        HitsOne("plus", "Plus", f);
      case OnePlusFamily =>
        Lookup1(Rule(["pro"], "Pro"), f, "Standard");
        HitsOne("pro", "Pro", f);
      case XiaomiFamily =>
      case UnknownFamily =>
    }
  }

  /** The series tests of each brand (lines 35-38, 49-52, 58-67, 75-78, 84-91) as chains. */
  lemma SeriesChain(family: Family, f: string)
    ensures Lookup(ProfileOf(family).seriesRules, f, ProfileOf(family).seriesDefault) ==
      match family
      case AppleFamily => Numbered("iphone", true, "iPhone ")
      case RealmeFamily => Numbered("realme", true, "Realme ")
      case SamsungFamily =>
        if Contains(f, "s2") then Numbered("s", false, "Galaxy S")
        else if Contains(f, "note") then Fixed("Galaxy Note")
        else Fixed("Galaxy")
      case OnePlusFamily => Numbered("oneplus", true, "OnePlus ")
      case XiaomiFamily =>
        if Contains(f, "note") then Fixed("Note Series")
        else if Contains(f, "mi") then Numbered("mi", true, "Mi ")
        else Fixed("Unknown")
      case UnknownFamily => Fixed("Unknown")
  {
    match family {
      case SamsungFamily =>
        var r0, r1 := Rule(["s2"], Numbered("s", false, "Galaxy S")), Rule(["note"], Fixed("Galaxy Note"));
        Lookup2(r0, r1, f, Fixed("Galaxy"));
        Lookup1(r1, f, Fixed("Galaxy"));
        HitsOne("s2", r0.outcome, f);
        HitsOne("note", r1.outcome, f);
      case XiaomiFamily =>
        var r0, r1 := Rule(["note"], Fixed("Note Series")), Rule(["mi"], Numbered("mi", true, "Mi "));
        Lookup2(r0, r1, f, Fixed("Unknown"));
        Lookup1(r1, f, Fixed("Unknown"));
        HitsOne("note", r0.outcome, f);
        HitsOne("mi", r1.outcome, f);
      case _ =>
    }
  }

  /** The document-type tests of lines 95-101 as the chain the code writes. */
  lemma DocumentChain(f: string)
    ensures DocumentTypeOf(f) ==
      if Contains(f, "commission") then Commission
      else if Contains(f, "service") then Service
      else if Contains(f, "license") || Contains(f, "distribution") then License
      else Commission
  {
    var r0, r1, r2 := DocumentRules[0], DocumentRules[1], DocumentRules[2];
    assert DocumentRules == [r0, r1, r2];
    Lookup3(r0, r1, r2, f, Commission);
    Lookup2(r1, r2, f, Commission);
    Lookup1(r2, f, Commission);
    HitsOne("commission", Commission, f);
    HitsOne("service", Service, f);
    HitsTwo("license", "distribution", License, f);
  }

  // ---------------------------------------------------------------------
  // Properties of the heuristics

  /** No brand keyword: brand, series and model keep their initial values. */
  lemma UnknownFallback(f: string)
    requires !Contains(f, "iphone") && !Contains(f, "realme") && !Contains(f, "samsung")
    requires !Contains(f, "galaxy") && !Contains(f, "oneplus") && !Contains(f, "xiaomi")
    requires !Contains(f, "redmi")
    ensures MetadataOf(f).brand == "Unknown"
    ensures MetadataOf(f).series == "Unknown"
    ensures MetadataOf(f).model == "Standard"
  {
    FamilyChain(f);
    SeriesChain(UnknownFamily, f);
    ModelChain(UnknownFamily, f);
  }

  /** A name that mentions "iphone" is Apple's, whatever else it mentions. */
  lemma IphoneFirst(f: string)
    requires Contains(f, "iphone")
    ensures MetadataOf(f).brand == "Apple"
  {
    FamilyChain(f);
  }

  /** "pro max" is tested before "pro", so it is never shadowed. */
  lemma ProMaxNotShadowed(f: string)
    requires Contains(f, "iphone") && Contains(f, "pro max")
    ensures MetadataOf(f).model == "Pro Max"
  {
    FamilyChain(f);
    ModelChain(AppleFamily, f);
  }

  /** The iPhone model ladder: "Pro" needs "pro" without "pro max", "Plus" neither. */
  lemma IphoneModels(f: string)
    requires Contains(f, "iphone")
    ensures MetadataOf(f).model == "Pro" <==> Contains(f, "pro") && !Contains(f, "pro max")
    ensures MetadataOf(f).model == "Plus" <==> !Contains(f, "pro") && Contains(f, "plus")
    ensures MetadataOf(f).model == "Standard" <==> !Contains(f, "pro") && !Contains(f, "plus")
  {
    FamilyChain(f);
    ModelChain(AppleFamily, f);
    ProMaxHasPro(f);
  }

  lemma ProMaxHasPro(f: string)
    ensures Contains(f, "pro max") ==> Contains(f, "pro")
  {
    if Contains(f, "pro max") {
      assert Contains("pro max", "pro") by { assert StartsWith("pro max", "pro"); }
      ContainsTransitive(f, "pro max", "pro");
    }
  }

  /** An iPhone name gets "iPhone " and the digits `/iphone\s*(\d+)/`
      captures, for every name in which that pattern matches. */
  lemma IphoneSeriesNumber(f: string, ds: string)
    requires Contains(f, "iphone") && Search(f, NumberAfter("iphone", true)) == Some(ds)
    ensures MetadataOf(f).brand == "Apple" && MetadataOf(f).series == "iPhone " + ds
  {
    FamilyChain(f);
    SeriesChain(AppleFamily, f);
  }

  /** The series of a name read up to its first "iphone": when white space
      and a run of digits follow that keyword, the series is "iPhone " and
      those digits, as typed ("iphone 15" gives "iPhone 15", "iphone07"
      gives "iPhone 07"), whatever stands before the keyword. */
  lemma IphoneSeriesAt(pre: string, ws: string, ds: string, rest: string)
    requires !Contains(pre + "iphon", "iphone")
    requires AllSpace(ws)
    requires ds != [] && AllDigits(ds)
    requires rest == [] || !IsDigit(rest[0])
    ensures var f := pre + "iphone" + ws + ds + rest;
            MetadataOf(f).brand == "Apple" && MetadataOf(f).series == "iPhone " + ds
  {
    var f := pre + "iphone" + ws + ds + rest;
    assert "iphone"[..5] == "iphon";
    CaptureAtFirstKeyword(pre, "iphone", ws, ds, rest, f);
    IphoneSeriesNumber(f, ds);
  }

  /** A name whose first occurrence of a keyword is followed by white space
      and a digit run includes the keyword, and `/kw\s*(\d+)/` captures
      exactly that run in it. */
  lemma CaptureAtFirstKeyword(pre: string, kw: string, ws: string, ds: string, rest: string, f: string)
    requires kw != [] && !Contains(pre + kw[..|kw| - 1], kw)
    requires AllSpace(ws)
    requires ds != [] && AllDigits(ds)
    requires rest == [] || !IsDigit(rest[0])
    requires f == pre + kw + ws + ds + rest
    ensures Contains(f, kw) && Search(f, NumberAfter(kw, true)) == Some(ds)
  {
    var p := NumberAfter(kw, true);
    assert MatchAt(f, p, |pre|) == Some(ds) by {
      NumberAfterMatch(pre, kw, ws, ds, rest);
    }
    assert Contains(f, kw) by {
      assert OccursAt(f, kw, |pre|);
      ContainsAt(f, kw, |pre|);
    }
    NoMatchBefore(pre, kw, ws + ds + rest, f);
    SearchLeftmost(f, p, |pre|);
  }

  /** Before the first occurrence of a keyword, `/kw\s*(\d+)/` matches nowhere. */
  lemma NoMatchBefore(pre: string, kw: string, after: string, f: string)
    requires kw != [] && !Contains(pre + kw[..|kw| - 1], kw)
    requires |f| == |pre| + |kw| + |after|
    requires forall k :: 0 <= k < |pre| ==> f[k] == pre[k]
    requires forall k :: 0 <= k < |kw| ==> f[|pre| + k] == kw[k]
    ensures forall j :: 0 <= j < |pre| ==> MatchAt(f, NumberAfter(kw, true), j).None?
  {
    var head := pre + kw[..|kw| - 1];
    forall k | 0 <= k < |head|
      ensures f[k] == head[k]
    {
      if k >= |pre| {
        assert f[|pre| + (k - |pre|)] == kw[k - |pre|];
      }
    }
    forall j | 0 <= j < |pre|
      ensures MatchAt(f, NumberAfter(kw, true), j).None?
    {
      NoMatchInPrefix(head, f, kw, j);
    }
  }

  /** A keyword that a prefix of `f` does not include starts nowhere early
      enough to end inside that prefix, so the pattern matches there nowhere. */
  lemma NoMatchInPrefix(head: string, f: string, kw: string, j: nat)
    requires !Contains(head, kw)
    requires |head| <= |f| && forall k :: 0 <= k < |head| ==> f[k] == head[k]
    requires j + |kw| <= |head|
    ensures MatchAt(f, NumberAfter(kw, true), j).None?
  {
    if OccursAt(f, kw, j) {
      assert head[j..j + |kw|] == f[j..j + |kw|];
      ContainsAt(head, kw, j);
    }
  }

  /** An iPhone name without a number after the keyword has series "Unknown". */
  lemma IphoneSeriesUnknown(f: string)
    requires Contains(f, "iphone") && Search(f, NumberAfter("iphone", true)).None?
    ensures MetadataOf(f).series == "Unknown"
  {
    FamilyChain(f);
    SeriesChain(AppleFamily, f);
  }

  /** On the Samsung branch the guard `includes('s2')` guarantees that
      `/s(\d+)/` matches, so the "Galaxy S" series always gets a number. */
  lemma SamsungGuardImpliesMatch(f: string)
    requires Contains(f, "s2")
    ensures Search(f, NumberAfter("s", false)).Some?
  {
    var i := ContainsWitness(f, "s2");
    assert f[i..i + 2] == "s2";
    assert f[i] == 's' && f[i + 1] == '2';
    assert OccursAt(f, "s", i) by { assert f[i..i + 1] == "s"; }
    assert f[i + 1..][0] == '2';
    SearchFinds(f, NumberAfter("s", false), i);
  }

  /** A Samsung name with "s2" has a "Galaxy S" series carrying a number. */
  lemma SamsungSeries(f: string)
    requires FamilyOf(f) == SamsungFamily && Contains(f, "s2")
    ensures var s := MetadataOf(f).series;
            |s| > 8 && s[..8] == "Galaxy S" && AllDigits(s[8..])
  {
    SeriesChain(SamsungFamily, f);
    SamsungGuardImpliesMatch(f);
    var digits := Search(f, NumberAfter("s", false)).value;
    var i := FindFrom(f, NumberAfter("s", false), 0).value;
    assert digits == MatchAt(f, NumberAfter("s", false), i).value;
    assert ("Galaxy S" + digits)[8..] == digits;
  }

  /** On the Xiaomi/Redmi branch the test `includes('mi')` always succeeds,
      since both keywords end in "mi"; the fallback "Unknown" is reached only
      when no number follows a "mi". */
  lemma XiaomiBranchHasMi(f: string)
    requires Contains(f, "xiaomi") || Contains(f, "redmi")
    ensures Contains(f, "mi")
  {
    if Contains(f, "xiaomi") {
      assert OccursAt("xiaomi", "mi", 4);
      ContainsAt("xiaomi", "mi", 4);
      ContainsTransitive(f, "xiaomi", "mi");
    } else {
      assert OccursAt("redmi", "mi", 3);
      ContainsAt("redmi", "mi", 3);
      ContainsTransitive(f, "redmi", "mi");
    }
  }

  /** The "Unknown" fallback of the Xiaomi series is reached only through a
      failed number match, never through the keyword test. */
  lemma XiaomiSeries(f: string)
    requires FamilyOf(f) == XiaomiFamily && !Contains(f, "note")
    ensures MetadataOf(f).series == ResolveSeries(Numbered("mi", true, "Mi "), f)
  {
    FamilyChain(f);
    XiaomiBranchHasMi(f);
    SeriesChain(XiaomiFamily, f);
  }

  /** Document type: the first of "commission", "service", "license"/"distribution"
      that occurs decides; "commission" when none does. */
  lemma DocumentTypeRules(f: string)
    ensures DocumentTypeOf(f) == Service <==> !Contains(f, "commission") && Contains(f, "service")
    ensures DocumentTypeOf(f) == License <==>
      !Contains(f, "commission") && !Contains(f, "service") && (Contains(f, "license") || Contains(f, "distribution"))
    ensures DocumentTypeOf(f) == Commission <==>
      Contains(f, "commission") || (!Contains(f, "service") && !Contains(f, "license") && !Contains(f, "distribution"))
  {
    DocumentChain(f);
  }

  /** The version is the first `/20\d{2}/` token of the name with ".1"
      appended, that is "20", two digits and ".1"; "2025.1" when the name
      holds no such token. */
  lemma VersionRule(f: string)
    ensures (forall j :: 0 <= j <= |f| ==> !YearAt(f, j)) ==> VersionOf(f) == "2025.1"
    ensures forall i :: 0 <= i <= |f| && YearAt(f, i) && (forall j :: 0 <= j < i ==> !YearAt(f, j)) ==>
      VersionOf(f) == f[i..i + 4] + ".1"
    ensures (exists j :: 0 <= j <= |f| && YearAt(f, j)) ==>
      var v := VersionOf(f);
      |v| == 6 && v[..2] == "20" && IsDigit(v[2]) && IsDigit(v[3]) && v[4..] == ".1"
  {
    forall i | 0 <= i <= |f| && YearAt(f, i) && (forall j :: 0 <= j < i ==> !YearAt(f, j))
      ensures VersionOf(f) == f[i..i + 4] + ".1"
    {
      VersionOfFirstYear(f, i);
    }
    if exists j :: 0 <= j <= |f| && YearAt(f, j) {
      var j :| 0 <= j <= |f| && YearAt(f, j);
      VersionShape(f, j);
    }
  }

  lemma VersionOfFirstYear(f: string, i: nat)
    requires i <= |f| && YearAt(f, i)
    requires forall j :: 0 <= j < i ==> !YearAt(f, j)
    ensures VersionOf(f) == f[i..i + 4] + ".1"
  {
    SearchLeftmost(f, YearToken, i);
  }

  lemma VersionShape(f: string, j: nat)
    requires j <= |f| && YearAt(f, j)
    ensures var v := VersionOf(f);
      |v| == 6 && v[..2] == "20" && IsDigit(v[2]) && IsDigit(v[3]) && v[4..] == ".1"
  {
    SearchFinds(f, YearToken, j);
    var i := FindFrom(f, YearToken, 0).value;
    var y := f[i..i + 4];
    assert VersionOf(f) == y + ".1";
    assert y[..2] == f[i..i + 2];
  }

  // ---------------------------------------------------------------------
  // Key-term pools and the risk rule

  const MarginPool: seq<string> := ["8%", "10%", "12%", "15%", "18%"]
  const PaymentPool: seq<string> := ["30 days", "45 days", "60 days", "90 days"]
  const SlaPool: seq<string> := ["12 hours", "24 hours", "36 hours", "48 hours"]
  const TerritoryPool: seq<string> := ["1 state", "2 states", "3 states", "Regional", "National"]

  /** The values `Math.random()` picks: an index into each pool, the
      exclusivity coin and the minimum order quantity. */
  datatype TermDraw = TermDraw(
    marginIndex: nat, paymentIndex: nat, slaIndex: nat, territoryIndex: nat,
    exclusive: bool, orderQuantity: nat)

  /** `Math.floor(Math.random() * k)` lies in [0, k) and
      `Math.floor(Math.random() * 200 + 50)` in [50, 250). */
  predicate ValidDraw(d: TermDraw)
  {
    && d.marginIndex < |MarginPool|
    && d.paymentIndex < |PaymentPool|
    && d.slaIndex < |SlaPool|
    && d.territoryIndex < |TerritoryPool|
    && 50 <= d.orderQuantity < 250
  }

  /** The risk rule of lines 119-127 on the values `parseInt` returns;
      `None` is `NaN`, for which every comparison is false. */
  function RiskLevelFor(margin: Option<int>, days: Option<int>): RiskLevel
  {
    if margin.Some? && days.Some? && margin.value >= 12 && days.value <= 45 then Low
    else if (margin.Some? && margin.value < 10) || (days.Some? && days.value >= 90) then High
    else Medium
  }

  function RiskRank(r: RiskLevel): nat
  {
    match r
    case Low => 0
    case Medium => 1
    case High => 2
  }

  /** Low and high exactly as the rule states them, medium in between. */
  lemma RiskClassification(m: int, d: int)
    ensures RiskLevelFor(Some(m), Some(d)) == Low <==> m >= 12 && d <= 45
    ensures RiskLevelFor(Some(m), Some(d)) == High <==> !(m >= 12 && d <= 45) && (m < 10 || d >= 90)
    ensures RiskLevelFor(Some(m), Some(d)) == Medium <==> !(m >= 12 && d <= 45) && m >= 10 && d < 90
  {
  }

  /** Raising the margin never makes the risk worse. */
  lemma RiskMonotoneInMargin(m1: int, m2: int, d: int)
    requires m1 <= m2
    ensures RiskRank(RiskLevelFor(Some(m2), Some(d))) <= RiskRank(RiskLevelFor(Some(m1), Some(d)))
  {
  }

  /** Lengthening the payment period never makes the risk better. */
  lemma RiskMonotoneInDays(m: int, d1: int, d2: int)
    requires d1 <= d2
    ensures RiskRank(RiskLevelFor(Some(m), Some(d1))) <= RiskRank(RiskLevelFor(Some(m), Some(d2)))
  {
  }

  /** The percentage each margin of the pool states. */
  function MarginPercent(i: nat): nat
  {
    if i == 0 then 8 else if i == 1 then 10 else if i == 2 then 12 else if i == 3 then 15 else 18
  }

  /** The number of days each payment period of the pool states. */
  function PaymentDays(i: nat): nat
  {
    if i == 0 then 30 else if i == 1 then 45 else if i == 2 then 60 else 90
  }

  /** What `parseInt` reads from each margin of the pool. */
  lemma MarginPoolValues(i: nat)
    requires i < |MarginPool|
    ensures ParseInt(MarginPool[i]) == Some(MarginPercent(i))
  {
    assert MarginPool[i] == NatToString(MarginPercent(i)) + "%";
    ParseIntOfRendered(MarginPercent(i), "%");
  }

  /** What `parseInt` reads from each payment period of the pool. */
  lemma PaymentPoolValues(i: nat)
    requires i < |PaymentPool|
    ensures ParseInt(PaymentPool[i]) == Some(PaymentDays(i))
  {
    assert PaymentPool[i] == NatToString(PaymentDays(i)) + " days";
    ParseIntOfRendered(PaymentDays(i), " days");
  }

  /** For drawn terms the rule reads: low for a margin of at least 12% paid
      within 45 days, high for 8% or 90 days, medium otherwise. */
  lemma DrawnRisk(d: TermDraw)
    requires ValidDraw(d)
    ensures var r := RiskLevelFor(ParseInt(MarginPool[d.marginIndex]), ParseInt(PaymentPool[d.paymentIndex]));
            && (r == Low <==> d.marginIndex >= 2 && d.paymentIndex <= 1)
            && (r == High <==> !(d.marginIndex >= 2 && d.paymentIndex <= 1) && (d.marginIndex == 0 || d.paymentIndex == 3))
  {
    MarginPoolValues(d.marginIndex);
    PaymentPoolValues(d.paymentIndex);
    RiskClassification(MarginPercent(d.marginIndex), PaymentDays(d.paymentIndex));
  }

  /** What the rule gives for the terms of three seed contracts, which the
      seed data stores with other risk levels: a 9% margin paid in 90 days
      is high, 15% in 45 days is low, and 10% in 60 days is medium. */
  lemma SeedRisksByRule()
    ensures RiskLevelFor(ParseInt("9%"), ParseInt("90 days")) == High
    ensures RiskLevelFor(ParseInt("15%"), ParseInt("45 days")) == Low
    ensures RiskLevelFor(ParseInt("10%"), ParseInt("60 days")) == Medium
  {
    assert "9%" == NatToString(9) + "%";
    ParseIntOfRendered(9, "%");
    PaymentPoolValues(3);
    MarginPoolValues(3);
    PaymentPoolValues(1);
    MarginPoolValues(1);
    PaymentPoolValues(2);
  }
}
