/**
 * The content records the CMS serves: a generic object carrying a `type` tag, four typed
 * record shapes (youth house, project, page, site settings) and the four type guards that
 * recognise a generic object by its tag.
 *
 * Text is a `string`, a sequence of Unicode scalar values. JavaScript counts UTF-16 code
 * units instead; where that matters, see `ProjectCard.Utf16`.
 */
module Types {
  import opened Wrappers

  const YouthHousesType := "youth-houses"
  const ProjectsType := "projects"
  const PagesType := "pages"
  const SiteSettingsType := "site-settings"

  /** JavaScript truthiness of an optional string: present and not empty. */
  predicate Truthy(s: Option<string>) {
    s.Some? && s.value != ""
  }

  /**
   * The shared shape of every CMS object. `objectType` is the object's `type` tag. The
   * untyped `metadata` bag is not carried here: the guards never read it, and each typed
   * record below gives its metadata a shape of its own.
   */
  datatype CosmicObject = CosmicObject(
    id: string,
    slug: string,
    title: string,
    content: Option<string>,
    objectType: string,
    createdAt: string,
    modifiedAt: string)

  datatype Image = Image(url: string, imgixUrl: string)

  /** A `{ key, value }` select-field value, as the CMS returns for status and category. */
  datatype Choice = Choice(key: string, value: string)

  /** Name, address and coordinates are required strings; every other field is optional. */
  datatype YouthHouseMetadata = YouthHouseMetadata(
    name: string,
    address: string,
    latitude: string,
    longitude: string,
    description: Option<string>,
    activities: Option<string>,
    openingHours: Option<string>,
    phone: Option<string>,
    email: Option<string>,
    website: Option<string>,
    featuredImage: Option<Image>,
    gallery: Option<seq<Image>>,
    neighborhood: Option<string>,
    ageRange: Option<string>)

  datatype YouthHouse = YouthHouse(
    id: string,
    slug: string,
    title: string,
    content: Option<string>,
    createdAt: string,
    modifiedAt: string,
    metadata: YouthHouseMetadata)
  {
    /** The generic view of this record; its tag is the literal the interface fixes. */
    function AsObject(): (o: CosmicObject)
      ensures IsYouthHouse(o) && o.slug == slug && o.title == title
    {
      CosmicObject(id, slug, title, content, YouthHousesType, createdAt, modifiedAt)
    }

    /**
     * The label every component shows for a youth house: the metadata name when it is
     * not empty, the object title otherwise (`metadata.name || title`).
     */
    function Label(): (l: string)
      ensures metadata.name != "" ==> l == metadata.name
      ensures metadata.name == "" ==> l == title
      ensures l == "" <==> metadata.name == "" && title == ""
    {
      if metadata.name != "" then metadata.name else title
    }
  }

  datatype ProjectMetadata = ProjectMetadata(
    title: string,
    shortDescription: string,
    fullDescription: Option<string>,
    status: Option<Choice>,
    category: Option<Choice>,
    featuredImage: Option<Image>,
    startDate: Option<string>,
    endDate: Option<string>,
    youthHousesInvolved: Option<seq<YouthHouse>>,
    featuredHomepage: Option<bool>)

  datatype Project = Project(
    id: string,
    slug: string,
    title: string,
    content: Option<string>,
    createdAt: string,
    modifiedAt: string,
    metadata: ProjectMetadata)
  {
    function AsObject(): (o: CosmicObject)
      ensures IsProject(o) && o.slug == slug && o.title == title
    {
      CosmicObject(id, slug, title, content, ProjectsType, createdAt, modifiedAt)
    }
  }

  datatype PageMetadata = PageMetadata(
    title: string,
    content: Option<string>,
    seoDescription: Option<string>,
    featuredImage: Option<Image>,
    showInNav: Option<bool>,
    navOrder: Option<real>)

  datatype Page = Page(
    id: string,
    slug: string,
    title: string,
    content: Option<string>,
    createdAt: string,
    modifiedAt: string,
    metadata: PageMetadata)
  {
    function AsObject(): (o: CosmicObject)
      ensures IsPage(o) && o.slug == slug && o.title == title
    {
      CosmicObject(id, slug, title, content, PagesType, createdAt, modifiedAt)
    }
  }

  datatype SocialMedia = SocialMedia(
    instagram: Option<string>,
    facebook: Option<string>,
    twitter: Option<string>)

  datatype BrandColors = BrandColors(
    primary: string,
    secondary: string,
    accent: string,
    dark: string,
    light: string)

  datatype SiteSettingsMetadata = SiteSettingsMetadata(
    siteTitle: string,
    siteDescription: Option<string>,
    heroTitle: Option<string>,
    heroSubtitle: Option<string>,
    contactEmail: Option<string>,
    contactPhone: Option<string>,
    socialMedia: Option<SocialMedia>,
    brandColors: Option<BrandColors>,
    mapCenterLat: Option<string>,
    mapCenterLng: Option<string>,
    mapZoom: Option<real>)

  datatype SiteSettings = SiteSettings(
    id: string,
    slug: string,
    title: string,
    content: Option<string>,
    createdAt: string,
    modifiedAt: string,
    metadata: SiteSettingsMetadata)
  {
    function AsObject(): (o: CosmicObject)
      ensures IsSiteSettings(o) && o.slug == slug && o.title == title
    {
      CosmicObject(id, slug, title, content, SiteSettingsType, createdAt, modifiedAt)
    }
  }

  /** The `{ objects, total, limit, skip }` envelope of a collection query. */
  datatype CosmicResponse<T> = CosmicResponse(objects: seq<T>, total: int, limit: int, skip: int)

  // Type guards: each compares the tag with one literal.

  predicate IsYouthHouse(o: CosmicObject)
  {
    o.objectType == YouthHousesType
  }

  predicate IsProject(o: CosmicObject)
  {
    o.objectType == ProjectsType
  }

  predicate IsPage(o: CosmicObject)
  {
    o.objectType == PagesType
  }

  predicate IsSiteSettings(o: CosmicObject)
  {
    o.objectType == SiteSettingsType
  }

  datatype Kind = YouthHouseKind | ProjectKind | PageKind | SiteSettingsKind

  /**
   * The record kind an object's tag announces, if any. It agrees with each guard in both
   * directions, so at most one guard holds, and none holds for an unknown tag.
   */
  function KindOf(o: CosmicObject): (k: Option<Kind>)
    ensures k == Some(YouthHouseKind) <==> IsYouthHouse(o)
    ensures k == Some(ProjectKind) <==> IsProject(o)
    ensures k == Some(PageKind) <==> IsPage(o)
    ensures k == Some(SiteSettingsKind) <==> IsSiteSettings(o)
    ensures k == None <==> o.objectType !in {YouthHousesType, ProjectsType, PagesType, SiteSettingsType}
  {
    if o.objectType == YouthHousesType then Some(YouthHouseKind)
    else if o.objectType == ProjectsType then Some(ProjectKind)
    else if o.objectType == PagesType then Some(PageKind)
    else if o.objectType == SiteSettingsType then Some(SiteSettingsKind)
    else None
  }

  /** No object passes two guards: the four literals are distinct. */
  lemma AtMostOneGuard(o: CosmicObject)
    ensures (if IsYouthHouse(o) then 1 else 0) + (if IsProject(o) then 1 else 0)
          + (if IsPage(o) then 1 else 0) + (if IsSiteSettings(o) then 1 else 0) <= 1
  {
  }

  /** Each typed record, viewed generically, passes its own guard and no other. */
  lemma GuardsRecogniseTheirRecords(h: YouthHouse, p: Project, g: Page, s: SiteSettings)
    ensures KindOf(h.AsObject()) == Some(YouthHouseKind)
    ensures KindOf(p.AsObject()) == Some(ProjectKind)
    ensures KindOf(g.AsObject()) == Some(PageKind)
    ensures KindOf(s.AsObject()) == Some(SiteSettingsKind)
  {
  }
}
