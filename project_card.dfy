/**
 * The project card: everything it shows is derived from one `Project` record by pure
 * rules: an image URL, a status and a category badge colour, a title, a description cut
 * to 120 code units, up to two youth-house chips with a "+N more" chip, a date line and
 * a link to the project's page.
 */
module ProjectCard {
  import opened Wrappers
  import opened Types

  const DefaultImage := "https://images.unsplash.com/photo-1531545514256-b1400bc00f31?w=800&h=400&fit=crop&auto=format"
  const ImgixParams := "?w=800&h=400&fit=crop&auto=format,compress"
  const DescriptionLimit := 120
  const Ellipsis := "..."
  const NoDescription := "No description available."
  const ProjectsPath := "/projects/"

  /** The card image: the imgix URL with fixed sizing parameters, or a stock photo. */
  function ImageUrl(p: Project): (url: string)
    ensures var img := p.metadata.featuredImage;
      if img.Some? && img.value.imgixUrl != "" then
        && |url| == |img.value.imgixUrl| + |ImgixParams|
        && url[..|img.value.imgixUrl|] == img.value.imgixUrl
        && url[|img.value.imgixUrl|..] == ImgixParams
      else url == DefaultImage
  {
    var img := p.metadata.featuredImage;
    if img.Some? && img.value.imgixUrl != "" then img.value.imgixUrl + ImgixParams else DefaultImage
  }

  const StatusColors := {"bg-green-500", "bg-yellow-500", "bg-blue-500"}

  /** Badge colour of a status: active is green, planning yellow, anything else blue. */
  function StatusColor(status: Option<Choice>): (c: string)
    ensures c in StatusColors
    ensures c == "bg-green-500" <==> status.Some? && status.value.key == "active"
    ensures c == "bg-yellow-500" <==> status.Some? && status.value.key == "planning"
  {
    if status.Some? && status.value.key == "active" then "bg-green-500"
    else if status.Some? && status.value.key == "planning" then "bg-yellow-500"
    else "bg-blue-500"
  }

  const CategoryKeys := {"arts", "education", "community", "sports"}

  /** Badge colours of a category: arts, education, community and sports, else gray. */
  function CategoryColor(category: Option<Choice>): (c: string)
    ensures c == "bg-purple-100 text-purple-800" <==> category.Some? && category.value.key == "arts"
    ensures c == "bg-blue-100 text-blue-800" <==> category.Some? && category.value.key == "education"
    ensures c == "bg-green-100 text-green-800" <==> category.Some? && category.value.key == "community"
    ensures c == "bg-orange-100 text-orange-800" <==> category.Some? && category.value.key == "sports"
    ensures c == "bg-gray-100 text-gray-800" <==> category.None? || category.value.key !in CategoryKeys
  {
    if category.Some? && category.value.key == "arts" then "bg-purple-100 text-purple-800"
    else if category.Some? && category.value.key == "education" then "bg-blue-100 text-blue-800"
    else if category.Some? && category.value.key == "community" then "bg-green-100 text-green-800"
    else if category.Some? && category.value.key == "sports" then "bg-orange-100 text-orange-800"
    else "bg-gray-100 text-gray-800"
  }

  /** The card heading (and image alt text): the metadata title, else the object title. */
  function CardTitle(p: Project): (t: string)
    ensures p.metadata.title != "" ==> t == p.metadata.title
    ensures p.metadata.title == "" ==> t == p.title
    ensures t == "" <==> p.metadata.title == "" && p.title == ""
  {
    if p.metadata.title != "" then p.metadata.title else p.title
  }

  /** A UTF-16 code unit: what JavaScript's `length` and `substring` count. */
  type CodeUnit = u: int | 0 <= u < 0x1_0000

  /**
   * The UTF-16 encoding of one character: a character of the Basic Multilingual Plane is one
   * code unit, any other is a high surrogate followed by a low surrogate.
   */
  function CharUnits(c: char): (u: seq<CodeUnit>)
    ensures c as int < 0x1_0000 ==> u == [c as int]
    ensures c as int >= 0x1_0000 ==> |u| == 2 && 0xD800 <= u[0] < 0xDC00 && 0xDC00 <= u[1] < 0xE000
    ensures c as int >= 0x1_0000 ==> 0x1_0000 + (u[0] as int - 0xD800) * 0x400 + (u[1] as int - 0xDC00) == c as int
  {
    var v := c as int;
    if v < 0x1_0000 then [v]
    else [0xD800 + (v - 0x1_0000) / 0x400, 0xDC00 + (v - 0x1_0000) % 0x400]
  }

  /** A Dafny string (a sequence of Unicode scalar values) as JavaScript sees it. */
  function Utf16(s: string): (u: seq<CodeUnit>)
    ensures |s| <= |u| <= 2 * |s|
  {
    if s == [] then [] else CharUnits(s[0]) + Utf16(s[1..])
  }

  /** Encoding distributes over concatenation. */
  lemma {:induction false} Utf16Append(a: string, b: string)
    ensures Utf16(a + b) == Utf16(a) + Utf16(b)
  {
    if a == [] {
      assert a + b == b;
    } else {
      assert (a + b)[0] == a[0] && (a + b)[1..] == a[1..] + b;
      Utf16Append(a[1..], b);
      assert Utf16(a + b) == CharUnits(a[0]) + (Utf16(a[1..]) + Utf16(b));
    }
  }

  /** Within the Basic Multilingual Plane, characters and code units coincide. */
  lemma {:induction false} Utf16Bmp(s: string)
    requires forall i :: 0 <= i < |s| ==> s[i] as int < 0x1_0000
    ensures |Utf16(s)| == |s|
    ensures forall i :: 0 <= i < |s| ==> Utf16(s)[i] == s[i] as int
  {
    if s != [] {
      Utf16Bmp(s[1..]);
      assert Utf16(s) == [s[0] as int] + Utf16(s[1..]);
    }
  }

  /**
   * The description paragraph, in code units: longer than 120 units, it is cut to the first
   * 120 (which may split a surrogate pair) with "..." appended; otherwise it is shown as is,
   * or replaced by a fixed text when empty.
   */
  function ShownDescription(d: string): (r: seq<CodeUnit>)
    ensures var u := Utf16(d);
      && (|u| > DescriptionLimit ==>
            && |r| == DescriptionLimit + |Ellipsis|
            && r[..DescriptionLimit] == u[..DescriptionLimit]
            && r[DescriptionLimit..] == Utf16(Ellipsis))
      && (0 < |u| <= DescriptionLimit ==> r == u)
    ensures d == "" ==> r == Utf16(NoDescription)
    ensures |r| <= DescriptionLimit + |Ellipsis|
  {
    Utf16Bmp(Ellipsis);
    var u := Utf16(d);
    if d != "" && |u| > DescriptionLimit then u[..DescriptionLimit] + Utf16(Ellipsis)
    else if d != "" then u
    else Utf16(NoDescription)
  }

  // Decimal rendering of the "+N more" count, as JavaScript prints a non-negative integer.

  function DigitChar(d: nat): (c: char)
    requires d < 10
    ensures '0' <= c <= '9' && c as int - '0' as int == d
  {
    "0123456789"[d]
  }

  /** The decimal digits of `n`, most significant first, without leading zeros. */
  function Decimal(n: nat): (s: string)
    ensures |s| > 0 && (|s| > 1 ==> s[0] != '0')
    ensures forall i :: 0 <= i < |s| ==> '0' <= s[i] <= '9'
  {
    if n < 10 then [DigitChar(n)] else Decimal(n / 10) + [DigitChar(n % 10)]
  }

  /** The number a string of decimal digits denotes. */
  function DecimalValue(s: string): nat
    requires forall i :: 0 <= i < |s| ==> '0' <= s[i] <= '9'
  {
    if s == [] then 0 else DecimalValue(s[..|s| - 1]) * 10 + (s[|s| - 1] as int - '0' as int)
  }

  /** The decimal text reads back as the count it was printed from. */
  lemma {:induction false} DecimalRoundTrip(n: nat)
    ensures DecimalValue(Decimal(n)) == n
  {
    if n >= 10 {
      var s := Decimal(n);
      assert s[..|s| - 1] == Decimal(n / 10);
      DecimalRoundTrip(n / 10);
    }
  }

  /** The youth-house chips: the labels of the first two houses and an optional "+N more". */
  datatype Chips = Chips(labels: seq<string>, more: Option<string>)

  function YouthHouseChips(houses: Option<seq<YouthHouse>>): (r: Option<Chips>)
    ensures r.Some? <==> houses.Some? && |houses.value| > 0
    ensures r.Some? ==>
      var hs := houses.value;
      && |r.value.labels| == (if |hs| < 2 then |hs| else 2)
      && (forall i :: 0 <= i < |r.value.labels| ==> r.value.labels[i] == hs[i].Label())
      && (r.value.more.Some? <==> |hs| > 2)
      && (|hs| > 2 ==> r.value.more.value == "+" + Decimal(|hs| - 2) + " more")
  {
    if houses.Some? && |houses.value| > 0 then
      var hs := houses.value;
      var shown := if |hs| < 2 then hs else hs[..2];
      Some(Chips(seq(|shown|, i requires 0 <= i < |shown| => shown[i].Label()),
                 if |hs| > 2 then Some("+" + Decimal(|hs| - 2) + " more") else None))
    else None
  }

  /** The number the "+N more" chip announces is the count of houses not shown. */
  lemma MoreChipCountsHidden(houses: seq<YouthHouse>)
    requires |houses| > 2
    ensures var c := YouthHouseChips(Some(houses)).value;
      var m := c.more.value;
      && m[..1] == "+" && m[|m| - 5..] == " more"
      && DecimalValue(m[1..|m| - 5]) + |c.labels| == |houses|
  {
    var m := YouthHouseChips(Some(houses)).value.more.value;
    assert m[1..|m| - 5] == Decimal(|houses| - 2);
    DecimalRoundTrip(|houses| - 2);
  }

  /** The date line: "Start: …" and "End: …" when set, joined by " • " only when both are. */
  datatype DateLine = DateLine(start: Option<string>, separator: Option<string>, end: Option<string>)

  /** `format` stands for `new Date(s).toLocaleDateString()`, which depends on the locale. */
  function Dates(p: Project, format: string -> string): (r: Option<DateLine>)
    ensures var s, e := p.metadata.startDate, p.metadata.endDate;
      && (r.Some? <==> Truthy(s) || Truthy(e))
      && (r.Some? ==>
            && (r.value.start.Some? <==> Truthy(s))
            && (r.value.start.Some? ==> r.value.start.value == "Start: " + format(s.value))
            && (r.value.end.Some? <==> Truthy(e))
            && (r.value.end.Some? ==> r.value.end.value == "End: " + format(e.value))
            && (r.value.separator.Some? <==> Truthy(s) && Truthy(e))
            && (r.value.separator.Some? ==> r.value.separator.value == " • "))
  {
    var s, e := p.metadata.startDate, p.metadata.endDate;
    if Truthy(s) || Truthy(e) then
      Some(DateLine(
        if Truthy(s) then Some("Start: " + format(s.value)) else None,
        if Truthy(s) && Truthy(e) then Some(" • ") else None,
        if Truthy(e) then Some("End: " + format(e.value)) else None))
    else None
  }

  datatype Badge = Badge(color: string, text: string)

  /** Everything the card shows, apart from its fixed decoration. */
  datatype Card = Card(
    imageUrl: string,
    imageAlt: string,
    status: Option<Badge>,
    category: Option<Badge>,
    title: string,
    description: seq<CodeUnit>,
    chips: Option<Chips>,
    dates: Option<DateLine>,
    href: string)

  function RenderCard(p: Project, format: string -> string): (c: Card)
    ensures c.title == c.imageAlt
    ensures c.title == (if p.metadata.title != "" then p.metadata.title else p.title)
    ensures |c.href| == |ProjectsPath| + |p.slug| && c.href[..|ProjectsPath|] == ProjectsPath && c.href[|ProjectsPath|..] == p.slug
    ensures c.status.Some? <==> p.metadata.status.Some?
    ensures c.status.Some? ==> c.status.value.text == p.metadata.status.value.value && c.status.value.color == StatusColor(p.metadata.status)
    ensures c.category.Some? <==> p.metadata.category.Some?
    ensures c.category.Some? ==> c.category.value.text == p.metadata.category.value.value && c.category.value.color == CategoryColor(p.metadata.category)
    ensures c.imageUrl == ImageUrl(p)
    ensures c.description == ShownDescription(p.metadata.shortDescription)
    ensures c.chips == YouthHouseChips(p.metadata.youthHousesInvolved)
    ensures c.dates == Dates(p, format)
  {
    Card(
      ImageUrl(p),
      CardTitle(p),
      if p.metadata.status.Some? then Some(Badge(StatusColor(p.metadata.status), p.metadata.status.value.value)) else None,
      if p.metadata.category.Some? then Some(Badge(CategoryColor(p.metadata.category), p.metadata.category.value.value)) else None,
      CardTitle(p),
      ShownDescription(p.metadata.shortDescription),
      YouthHouseChips(p.metadata.youthHousesInvolved),
      Dates(p, format),
      ProjectsPath + p.slug)
  }

  /** A description of exactly 120 code units is kept whole; one of 121 is cut. */
  lemma TruncationBoundary(d120: string, d121: string)
    requires |Utf16(d120)| == DescriptionLimit && |Utf16(d121)| == DescriptionLimit + 1
    ensures ShownDescription(d120) == Utf16(d120)
    ensures ShownDescription(d121) == Utf16(d121)[..DescriptionLimit] + Utf16(Ellipsis)
  {
  }

  /**
   * The cut counts code units, not characters: 119 letters and one emoji are 120 characters
   * but 121 code units, so the description is cut, and its 120th unit is the emoji's high
   * surrogate, left without its partner.
   */
  lemma CutSplitsSurrogatePair(letters: string)
    requires |letters| == DescriptionLimit - 1
    requires forall i :: 0 <= i < |letters| ==> letters[i] as int < 0x1_0000
    ensures var d := letters + "\U{1F600}";
      && |d| == DescriptionLimit
      && |ShownDescription(d)| == DescriptionLimit + |Ellipsis|
      && ShownDescription(d)[DescriptionLimit - 1] == 0xD83D
  {
    var d := letters + "\U{1F600}";
    Utf16Append(letters, "\U{1F600}");
    Utf16Bmp(letters);
    assert Utf16("\U{1F600}") == [0xD83D, 0xDE00];
    assert Utf16(d)[DescriptionLimit - 1] == 0xD83D;
  }
}
