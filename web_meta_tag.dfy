/**
 * Link-preview tags of the server-rendered page (server/startup/webMetaTag.js): the
 * company id read from the request path, the two tag templates, the three tag groups
 * and the choice between the company group and the default group. The database lookup
 * is a parameter `getCompanyData`.
 */
module WebMetaTag {
  import opened Optional

  // ---------------------------------------------------------------------------
  // extractCompanyId

  const DetailPrefix := "/company/detail/"

  /**
   * The character class of the pattern, 0-9 A-H J-N P-T W-Z a-k m-z: digits and letters
   * except I, O, U, V and l.
   */
  predicate IsIdChar(c: char)
  {
    ('0' <= c <= '9') || ('A' <= c <= 'H') || ('J' <= c <= 'N') || ('P' <= c <= 'T') || ('W' <= c <= 'Z')
    || ('a' <= c <= 'k') || ('m' <= c <= 'z')
  }

  /** The pattern matches at position i: the prefix, then 17 characters from the alphabet. */
  predicate MatchesAt(pathname: string, i: nat)
  {
    i + 33 <= |pathname| && pathname[i..i + 16] == DetailPrefix
    && forall k | i + 16 <= k < i + 33 :: IsIdChar(pathname[k])
  }

  /** The leftmost position at or after `from` where the pattern matches. */
  function SearchFrom(pathname: string, from: nat): (r: Option<nat>)
    requires from <= |pathname|
    ensures r.Some? ==> from <= r.value && MatchesAt(pathname, r.value)
                        && forall j | from <= j < r.value :: !MatchesAt(pathname, j)
    ensures r.None? ==> forall j | from <= j :: !MatchesAt(pathname, j)
    decreases |pathname| - from
  {
    if from + 33 > |pathname| then None
    else if MatchesAt(pathname, from) then Some(from)
    else SearchFrom(pathname, from + 1)
  }

  /** The array String.prototype.match gives for a pattern without the g flag: the whole match, then each group. */
  datatype RegexMatch = RegexMatch(groups: seq<string>)

  /** pathname.match(tripIdRegExp): the pattern has one capture group, the 17 id characters. */
  function MatchDetailPath(pathname: string): (m: Option<RegexMatch>)
    ensures m.Some? <==> exists i :: MatchesAt(pathname, i)
    ensures m.Some? ==>
              exists i: nat :: MatchesAt(pathname, i) && (forall j | 0 <= j < i :: !MatchesAt(pathname, j))
                          && m.value.groups == [pathname[i..i + 33], pathname[i + 16..i + 33]]
  {
    match SearchFrom(pathname, 0)
    case None => None
    case Some(i) => Some(RegexMatch([pathname[i..i + 33], pathname[i + 16..i + 33]]))
  }

  /** extractCompanyId: the captured id of the leftmost match, or None when nothing matches. */
  function ExtractCompanyId(pathname: string): (r: Option<string>)
    ensures r.Some? <==> exists i :: MatchesAt(pathname, i)
    ensures r.Some? ==>
              |r.value| == 17 && (forall c | c in r.value :: IsIdChar(c))
              && exists i :: MatchesAt(pathname, i) && r.value == pathname[i + 16..i + 33]
                             && forall j | 0 <= j < i :: !MatchesAt(pathname, j)
  {
    var m := MatchDetailPath(pathname);
    if m.None? || |m.value.groups| > 2 then None else Some(m.value.groups[1])
  }

  /** The guard on the length of the match never rejects: a match always has exactly two entries. */
  lemma MatchLengthTestIsDead(pathname: string)
    ensures MatchDetailPath(pathname).Some? ==> !(|MatchDetailPath(pathname).value.groups| > 2)
    ensures MatchDetailPath(pathname).Some? ==> ExtractCompanyId(pathname) == Some(MatchDetailPath(pathname).value.groups[1])
  {
  }

  /** The class leaves out I, O, U, V and l, and every other digit and ASCII letter is in it. */
  lemma AlphabetExclusions(c: char)
    ensures !IsIdChar('I') && !IsIdChar('O') && !IsIdChar('U') && !IsIdChar('V') && !IsIdChar('l')
    ensures ('0' <= c <= '9' || 'A' <= c <= 'Z' || 'a' <= c <= 'z') && c !in "IOUVl" ==> IsIdChar(c)
  {
  }

  /** The match is not anchored: any text may precede the prefix, and the id may be followed by anything. */
  lemma UnanchoredMatch(before: string, id: string, after: string)
    requires |id| == 17 && forall c | c in id :: IsIdChar(c)
    requires forall j | 0 <= j <= |before| :: !MatchesAt(before + DetailPrefix + id + after, j) || j == |before|
    ensures ExtractCompanyId(before + DetailPrefix + id + after) == Some(id)
  {
    var p := before + DetailPrefix + id + after;
    var n := |before|;
    assert p[n..n + 16] == DetailPrefix;
    assert p[n + 16..n + 33] == id;
    forall k | n + 16 <= k < n + 33 ensures IsIdChar(p[k]) {
      assert p[k] == id[k - n - 16];
    }
    assert MatchesAt(p, n);
    var m := ExtractCompanyId(p);
    var i :| MatchesAt(p, i) && m.value == p[i + 16..i + 33] && forall j | 0 <= j < i :: !MatchesAt(p, j);
    assert i == n;
  }

  /** One character outside the alphabet among the 17 rules out a match at that position. */
  lemma ForeignCharacterBlocksMatch(pathname: string, i: nat, k: nat)
    requires i + 16 <= k < i + 33 && k < |pathname| && !IsIdChar(pathname[k])
    ensures !MatchesAt(pathname, i)
  {
  }

  // ---------------------------------------------------------------------------
  // The tag templates.

  const PropertyOpen := "<meta property=\""
  const NameOpen := "<meta name=\""
  const ContentOpen := "\" content=\""
  const TagClose := "\" />"

  /** createMetaProperty: both arguments are pasted in as they are, nothing is escaped. */
  function CreateMetaProperty(property: string, content: string): string
  {
    PropertyOpen + property + ContentOpen + content + TagClose
  }

  /** createMetaName: the name= form of the same template. */
  function CreateMetaName(name: string, content: string): string
  {
    NameOpen + name + ContentOpen + content + TagClose
  }

  /** The first double quote at or after `from`, or |s| if there is none. */
  function IndexOfQuote(s: string, from: nat): (k: nat)
    requires from <= |s|
    ensures from <= k <= |s|
    ensures k < |s| ==> s[k] == '"'
    ensures forall j | from <= j < k :: s[j] != '"'
    decreases |s| - from
  {
    if from == |s| || s[from] == '"' then from else IndexOfQuote(s, from + 1)
  }

  /**
   * Reads a tag back: key and content of a tag that starts with `open`, ends with the
   * closing quote and has the content attribute right after the key's first quote.
   */
  function ParseMeta(open: string, tag: string): Option<(string, string)>
  {
    if |tag| < |open| + |ContentOpen| + |TagClose| || tag[..|open|] != open || tag[|tag| - |TagClose|..] != TagClose
    then None
    else
      var q := IndexOfQuote(tag, |open|);
      if q + |ContentOpen| <= |tag| - |TagClose| && tag[q..q + |ContentOpen|] == ContentOpen
      then Some((tag[|open|..q], tag[q + |ContentOpen|..|tag| - |TagClose|]))
      else None
  }

  /** A key without quotes and any content are read back from the tag built from them. */
  lemma MetaRoundTrip(open: string, key: string, content: string)
    requires open == PropertyOpen || open == NameOpen
    requires '"' !in key
    ensures ParseMeta(open, open + key + ContentOpen + content + TagClose) == Some((key, content))
  {
    var tag := open + key + ContentOpen + content + TagClose;
    var n := |open|;
    assert tag[..n] == open;
    assert tag[n..n + |key|] == key;
    assert tag[n + |key|..n + |key| + |ContentOpen|] == ContentOpen;
    assert tag[n + |key| + |ContentOpen|..|tag| - |TagClose|] == content;
    assert tag[|tag| - |TagClose|..] == TagClose;
    forall j | n <= j < n + |key| ensures tag[j] != '"' {
      assert tag[j] == key[j - n];
    }
    assert tag[n + |key|] == '"';
    assert IndexOfQuote(tag, n) == n + |key|;
  }

  /** createMetaProperty's property, when it has no quote, and its content are read back from its text. */
  lemma CreateMetaPropertyRoundTrip(property: string, content: string)
    requires '"' !in property
    ensures ParseMeta(PropertyOpen, CreateMetaProperty(property, content)) == Some((property, content))
  {
    MetaRoundTrip(PropertyOpen, property, content);
  }

  /** createMetaName's name, when it has no quote, and its content are read back from its text. */
  lemma CreateMetaNameRoundTrip(name: string, content: string)
    requires '"' !in name
    ensures ParseMeta(NameOpen, CreateMetaName(name, content)) == Some((name, content))
  {
    MetaRoundTrip(NameOpen, name, content);
  }

  /** Without escaping, a quote in the property lets two different pairs produce the same tag. */
  lemma UnescapedQuoteIsAmbiguous()
    ensures CreateMetaProperty("a\" content=\"b", "c") == CreateMetaProperty("a", "b\" content=\"c")
  {
  }

  // ---------------------------------------------------------------------------
  // Tag groups and the page head.

  /** One tag: the property= form or the name= form. */
  datatype MetaTag = Property(key: string, content: string) | Name(key: string, content: string)

  function Render(tag: MetaTag): string
  {
    match tag
    case Property(p, c) => CreateMetaProperty(p, c)
    case Name(n, c) => CreateMetaName(n, c)
  }

  /** The tags of a list, rendered one after the other, as an accumulator that each tag is appended to. */
  function RenderAll(tags: seq<MetaTag>): string
  {
    if tags == [] then "" else RenderAll(tags[..|tags| - 1]) + Render(tags[|tags| - 1])
  }

  /** Appending one tag to the list appends its text to the rendering. */
  lemma RenderAllSnoc(tags: seq<MetaTag>, tag: MetaTag)
    ensures RenderAll(tags + [tag]) == RenderAll(tags) + Render(tag)
  {
    assert (tags + [tag])[..|tags|] == tags;
  }

  /**
   * Associativity of concatenation, as a separate step: keeping it out of the inductive
   * proof below keeps the solver from exploring the rendered strings.
   */
  lemma ConcatAssoc(x: string, y: string, z: string)
    ensures (x + y) + z == x + (y + z)
  {
  }

  lemma {:induction false} RenderAllConcat(a: seq<MetaTag>, b: seq<MetaTag>)
    ensures RenderAll(a + b) == RenderAll(a) + RenderAll(b)
    decreases |b|
  {
    if b == [] {
      assert a + b == a;
    } else {
      var init, last := b[..|b| - 1], b[|b| - 1];
      assert b == init + [last];
      assert a + b == (a + init) + [last];
      RenderAllSnoc(init, last);
      RenderAllSnoc(a + init, last);
      RenderAllConcat(a, init);
      ConcatAssoc(RenderAll(a), RenderAll(init), Render(last));
    }
  }

  /** The fields of a company the company tags use; the small picture is optional. */
  datatype CompanyData = CompanyData(companyName: string, pictureSmall: Option<string>, description: string,
                                     listPrice: int, capital: int, totalValue: int)

  /** How a template literal writes an optional string: a missing value becomes the text undefined. */
  function TemplateText(v: Option<string>): string
  {
    if v.Some? then v.value else "undefined"
  }

  /** Decimal digits of a natural number. */
  function NatToString(n: nat): (r: string)
    ensures |r| >= 1
    ensures forall i | 0 <= i < |r| :: '0' <= r[i] <= '9'
    ensures r[0] == '0' ==> n == 0 && |r| == 1
    decreases n
  {
    if n < 10 then ["0123456789"[n]] else NatToString(n / 10) + ["0123456789"[n % 10]]
  }

  /** A string made only of decimal digits. */
  predicate IsDigits(s: string)
  {
    forall i | 0 <= i < |s| :: '0' <= s[i] <= '9'
  }

  /** The value of a string of decimal digits. */
  function ParseNat(s: string): nat
    requires IsDigits(s)
  {
    if s == [] then 0 else 10 * ParseNat(s[..|s| - 1]) + (s[|s| - 1] as int - '0' as int)
  }

  /** Digits are read back as the number they were written from. */
  lemma {:induction false} NatToStringRoundTrip(n: nat)
    ensures ParseNat(NatToString(n)) == n
    decreases n
  {
    var s := NatToString(n);
    DigitValue(n % 10);
    if n >= 10 {
      var init := NatToString(n / 10);
      assert s == init + ["0123456789"[n % 10]];
      assert s[..|s| - 1] == init;
      NatToStringRoundTrip(n / 10);
    }
  }

  /** The digit written for k is read back as k. */
  lemma DigitValue(k: nat)
    requires k < 10
    ensures "0123456789"[k] as int - '0' as int == k
  {
  }

  /** How a template literal writes an integer. */
  function IntToString(i: int): string
  {
    if i < 0 then "-" + NatToString(-i) else NatToString(i)
  }

  /** A minus sign appears exactly for a negative number, and the digits after it read back as |i|. */
  lemma IntToStringReadsBack(i: int)
    ensures |IntToString(i)| >= 1 && (IntToString(i)[0] == '-' <==> i < 0)
    ensures i >= 0 ==> ParseNat(IntToString(i)) == i
    ensures i < 0 ==> IsDigits(IntToString(i)[1..]) && ParseNat(IntToString(i)[1..]) == -i
  {
    if i < 0 {
      SignedDigitsReadBack(-i);
    } else {
      NatToStringRoundTrip(i);
    }
  }

  /** The text after the minus sign of a negative number is the number's own digits. */
  lemma SignedDigitsReadBack(n: nat)
    ensures var r := "-" + NatToString(n);
            r[1..] == NatToString(n) && IsDigits(r[1..]) && ParseNat(r[1..]) == n
  {
    var r := "-" + NatToString(n);
    assert r[1..] == NatToString(n);
    NatToStringRoundTrip(n);
  }

  /**
   * createCompanyDescription: the template with price, the two amounts and the company's
   * description. The label 市值 is followed by capital and 資本額 by totalValue, as written.
   */
  function CreateCompanyDescription(company: CompanyData): (r: string)
    // It opens with the price label followed by the list price's digits.
    ensures var head := "｜ 價格: " + IntToString(company.listPrice);
            |head| <= |r| && r[..|head|] == head
    // It ends with the company's own text, unescaped, then a newline and two spaces.
    ensures |r| >= |company.description| + 3 && r[|r| - |company.description| - 3..] == company.description + "\n  "
  {
    var head := "｜ 價格: " + IntToString(company.listPrice);
    var amounts := " ｜ 市值: " + IntToString(company.capital)
                   + " ｜ 資本額: " + IntToString(company.totalValue)
                   + " ｜\n\n    ";
    var text := company.description + "\n  ";
    assert head + amounts + company.description + "\n  " == head + (amounts + text);
    assert head + amounts + company.description + "\n  " == (head + amounts) + text;
    head + amounts + company.description + "\n  "
  }

  const CommonTags: seq<MetaTag> :=
    [Name("twitter:card", "summary"), Property("og:site_name", "acgn-stock"),
     Property("og:image:width", "300"), Property("og:image:height", "300")]

  const DefaultTags: seq<MetaTag> :=
    [Property("og:title", "ACGN 股票交易市場"),
     Property("og:image", "https://acgn-stock.com/ms-icon-310x310.png"),
     Property("og:description", "漲停!!")]

  function CompanyTags(company: CompanyData): seq<MetaTag>
  {
    [Property("og:title", company.companyName), Property("og:image", TemplateText(company.pictureSmall)),
     Property("og:image:url", TemplateText(company.pictureSmall)),
     Property("og:description", CreateCompanyDescription(company))]
  }

  /** A company without a small picture gets og:image and og:image:url tags whose content is the text undefined. */
  lemma MissingPictureRendersUndefined(company: CompanyData)
    requires company.pictureSmall.None?
    ensures Render(CompanyTags(company)[1]) == PropertyOpen + "og:image" + ContentOpen + "undefined" + TagClose
    ensures Render(CompanyTags(company)[2]) == PropertyOpen + "og:image:url" + ContentOpen + "undefined" + TagClose
  {
  }

  /**
   * The image tag reads back as the small picture when there is one, and as the text
   * undefined when there is none.
   */
  lemma PictureTagReadsBack(company: CompanyData)
    ensures company.pictureSmall.Some? ==>
              ParseMeta(PropertyOpen, Render(CompanyTags(company)[1])) == Some(("og:image", company.pictureSmall.value))
    ensures company.pictureSmall.None? ==>
              ParseMeta(PropertyOpen, Render(CompanyTags(company)[1])) == Some(("og:image", "undefined"))
  {
    CreateMetaPropertyRoundTrip("og:image", TemplateText(company.pictureSmall));
  }

  /** getCommonMetaTag: the four common tags appended one by one. */
  method GetCommonMetaTag() returns (metaTag: string)
    ensures metaTag == RenderAll(CommonTags)
  {
    ghost var done: seq<MetaTag> := [];
    metaTag := "";
    RenderAllSnoc(done, CommonTags[0]);
    assert Render(CommonTags[0]) == CreateMetaName("twitter:card", "summary");
    metaTag := metaTag + CreateMetaName("twitter:card", "summary");
    done := done + [CommonTags[0]];
    RenderAllSnoc(done, CommonTags[1]);
    assert Render(CommonTags[1]) == CreateMetaProperty("og:site_name", "acgn-stock");
    metaTag := metaTag + CreateMetaProperty("og:site_name", "acgn-stock");
    done := done + [CommonTags[1]];
    RenderAllSnoc(done, CommonTags[2]);
    assert Render(CommonTags[2]) == CreateMetaProperty("og:image:width", "300");
    metaTag := metaTag + CreateMetaProperty("og:image:width", "300");
    done := done + [CommonTags[2]];
    RenderAllSnoc(done, CommonTags[3]);
    assert Render(CommonTags[3]) == CreateMetaProperty("og:image:height", "300");
    metaTag := metaTag + CreateMetaProperty("og:image:height", "300");
    done := done + [CommonTags[3]];
    assert done == CommonTags;
  }

  /** getDefaultMetaTag: title, image and description of the exchange itself. */
  method GetDefaultMetaTag() returns (metaTag: string)
    ensures metaTag == RenderAll(DefaultTags)
  {
    ghost var done: seq<MetaTag> := [];
    metaTag := "";
    RenderAllSnoc(done, DefaultTags[0]);
    assert Render(DefaultTags[0]) == CreateMetaProperty("og:title", "ACGN 股票交易市場");
    metaTag := metaTag + CreateMetaProperty("og:title", "ACGN 股票交易市場");
    done := done + [DefaultTags[0]];
    RenderAllSnoc(done, DefaultTags[1]);
    assert Render(DefaultTags[1]) == CreateMetaProperty("og:image", "https://acgn-stock.com/ms-icon-310x310.png");
    metaTag := metaTag + CreateMetaProperty("og:image", "https://acgn-stock.com/ms-icon-310x310.png");
    done := done + [DefaultTags[1]];
    RenderAllSnoc(done, DefaultTags[2]);
    assert Render(DefaultTags[2]) == CreateMetaProperty("og:description", "漲停!!");
    metaTag := metaTag + CreateMetaProperty("og:description", "漲停!!");
    done := done + [DefaultTags[2]];
    assert done == DefaultTags;
  }

  /** getCompanyMetaTag: title, image, image URL and description of one company. */
  method GetCompanyMetaTag(company: CompanyData) returns (metaTag: string)
    ensures metaTag == RenderAll(CompanyTags(company))
  {
    var tags := CompanyTags(company);
    ghost var done: seq<MetaTag> := [];
    metaTag := "";
    RenderAllSnoc(done, tags[0]);
    assert Render(tags[0]) == CreateMetaProperty("og:title", company.companyName);
    metaTag := metaTag + CreateMetaProperty("og:title", company.companyName);
    done := done + [tags[0]];
    RenderAllSnoc(done, tags[1]);
    assert Render(tags[1]) == CreateMetaProperty("og:image", TemplateText(company.pictureSmall));
    metaTag := metaTag + CreateMetaProperty("og:image", TemplateText(company.pictureSmall));
    done := done + [tags[1]];
    RenderAllSnoc(done, tags[2]);
    assert Render(tags[2]) == CreateMetaProperty("og:image:url", TemplateText(company.pictureSmall));
    metaTag := metaTag + CreateMetaProperty("og:image:url", TemplateText(company.pictureSmall));
    done := done + [tags[2]];
    RenderAllSnoc(done, tags[3]);
    assert Render(tags[3]) == CreateMetaProperty("og:description", CreateCompanyDescription(company));
    metaTag := metaTag + CreateMetaProperty("og:description", CreateCompanyDescription(company));
    done := done + [tags[3]];
    assert done == tags;
  }

  /** The company looked up for a path: only when an id was extracted, and only if the lookup finds it. */
  function LookupCompany(pathname: string, getCompanyData: string -> Option<CompanyData>): (r: Option<CompanyData>)
    ensures (forall i :: !MatchesAt(pathname, i)) ==> r.None?
    ensures r.Some? ==> exists i: nat :: MatchesAt(pathname, i) && (forall j | 0 <= j < i :: !MatchesAt(pathname, j))
                                         && getCompanyData(pathname[i + 16..i + 33]) == r
    ensures (exists i :: MatchesAt(pathname, i)) ==>
              exists i: nat :: MatchesAt(pathname, i) && (forall j | 0 <= j < i :: !MatchesAt(pathname, j))
                               && r == getCompanyData(pathname[i + 16..i + 33])
  {
    var companyId := ExtractCompanyId(pathname);
    if companyId.Some? then getCompanyData(companyId.value) else None
  }

  /** The tags of the head: the common group, then the company group or the default group. */
  function PageTags(companyData: Option<CompanyData>): (t: seq<MetaTag>)
    ensures |t| >= |CommonTags| && t[..|CommonTags|] == CommonTags
    ensures companyData.Some? ==> t[|CommonTags|..] == CompanyTags(companyData.value)
    ensures companyData.None? ==> t[|CommonTags|..] == DefaultTags
  {
    CommonTags + (if companyData.Some? then CompanyTags(companyData.value) else DefaultTags)
  }

  /** The onPageLoad callback's head text for a request path. */
  method PageHead(pathname: string, getCompanyData: string -> Option<CompanyData>) returns (metaTag: string)
    ensures metaTag == RenderAll(PageTags(LookupCompany(pathname, getCompanyData)))
  {
    var companyId := ExtractCompanyId(pathname);
    var companyData := if companyId.Some? then getCompanyData(companyId.value) else None;
    metaTag := GetCommonMetaTag();
    if companyData.Some? {
      var tail := GetCompanyMetaTag(companyData.value);
      metaTag := metaTag + tail;
      RenderAllConcat(CommonTags, CompanyTags(companyData.value));
    } else {
      var tail := GetDefaultMetaTag();
      metaTag := metaTag + tail;
      RenderAllConcat(CommonTags, DefaultTags);
    }
  }

  /** How many tags of a list carry the given key. */
  function CountKey(tags: seq<MetaTag>, key: string): nat
  {
    if tags == [] then 0 else (if tags[0].key == key then 1 else 0) + CountKey(tags[1..], key)
  }

  lemma {:induction false} CountKeyConcat(a: seq<MetaTag>, b: seq<MetaTag>, key: string)
    ensures CountKey(a + b, key) == CountKey(a, key) + CountKey(b, key)
  {
    if a == [] {
      assert a + b == b;
    } else {
      assert (a + b)[0] == a[0];
      assert (a + b)[1..] == a[1..] + b;
      CountKeyConcat(a[1..], b, key);
    }
  }

  /** CountKey of a list of three or four tags. */
  lemma CountSmall(a: MetaTag, b: MetaTag, c: MetaTag, d: MetaTag, key: string)
    ensures CountKey([b, c, d], key) == (if b.key == key then 1 else 0) + (if c.key == key then 1 else 0) + (if d.key == key then 1 else 0)
    ensures CountKey([a, b, c, d], key) == (if a.key == key then 1 else 0) + CountKey([b, c, d], key)
  {
    assert [a, b, c, d][1..] == [b, c, d];
    assert [b, c, d][1..] == [c, d];
    assert [c, d][1..] == [d];
    assert [d][1..] == [];
    assert CountKey([d], key) == if d.key == key then 1 else 0;
    assert CountKey([c, d], key) == (if c.key == key then 1 else 0) + CountKey([d], key);
  }

  /** How often a key occurs in the head is its count among the common tags plus its count in the chosen group. */
  lemma CountInPage(companyData: Option<CompanyData>, key: string)
    requires key == "og:title" || key == "og:description" || key == "og:image:url"
    ensures CountKey(PageTags(companyData), key) == if key == "og:image:url" && companyData.None? then 0 else 1
  {
    var tail := if companyData.Some? then CompanyTags(companyData.value) else DefaultTags;
    CountKeyConcat(CommonTags, tail, key);
    CountSmall(CommonTags[0], CommonTags[1], CommonTags[2], CommonTags[3], key);
    if companyData.Some? {
      CountSmall(tail[0], tail[1], tail[2], tail[3], key);
    } else {
      CountSmall(Name("", ""), tail[0], tail[1], tail[2], key);
    }
  }

  /**
   * Never both groups: the head starts with the common tags and carries exactly one
   * og:title and one og:description; og:image:url appears exactly when a company was found.
   */
  lemma PageTagsChooseOneGroup(companyData: Option<CompanyData>)
    ensures PageTags(companyData)[..|CommonTags|] == CommonTags
    ensures CountKey(PageTags(companyData), "og:title") == 1
    ensures CountKey(PageTags(companyData), "og:description") == 1
    ensures CountKey(PageTags(companyData), "og:image:url") == if companyData.Some? then 1 else 0
  {
    CountInPage(companyData, "og:title");
    CountInPage(companyData, "og:description");
    CountInPage(companyData, "og:image:url");
  }
}
