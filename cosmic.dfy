/**
 * The CMS access layer: eight queries, each of which hands the SDK's answer through on
 * success, turns an error whose `status` is 404 into "nothing" (an empty list or null),
 * and turns every other error into a thrown failure with the query's fixed message.
 *
 * The SDK client and the network are outside the model: the backend's answer to each
 * query is a parameter, `sdk`, from the query issued to the outcome it settles with.
 */
module Cosmic {
  import opened Wrappers
  import opened Types

  /** A JavaScript value, as thrown by the SDK: what TypeScript calls `unknown`. */
  datatype JsValue =
    | Undefined
    | Null
    | Boolean(b: bool)
    | Number(n: real)
    | Str(s: string)
    | Object(props: map<string, JsValue>)   // arrays and plain objects alike
    | Function

  /** JavaScript's `typeof`, which famously answers "object" for null. */
  function TypeOf(v: JsValue): (t: string)
    ensures t == "object" <==> v.Null? || v.Object?
  {
    match v
    case Undefined => "undefined"
    case Null => "object"
    case Boolean(_) => "boolean"
    case Number(_) => "number"
    case Str(_) => "string"
    case Object(_) => "object"
    case Function => "function"
  }

  /** The error helper: `typeof e === 'object' && e !== null && 'status' in e`. */
  predicate HasStatus(e: JsValue)
    ensures HasStatus(e) <==> e.Object? && "status" in e.props
  {
    TypeOf(e) == "object" && e != Null && "status" in e.props
  }

  /** The not-found test every query shares: a status field strictly equal to 404. */
  predicate IsNotFound(e: JsValue)
    ensures IsNotFound(e) ==> e.Object?
  {
    HasStatus(e) && e.props["status"] == Number(404.0)
  }

  /** How an SDK call settles: the awaited promise resolves with a response or rejects. */
  datatype SdkOutcome<T> = Resolved(response: T) | Rejected(error: JsValue)

  /** How one of the query functions completes: it returns a value or throws an Error. */
  datatype Fetched<T> = Returned(value: T) | Thrown(message: string)

  /** A query the functions below issue: `find` (optionally featured only) or `findOne`. */
  datatype Query =
    | Find(objectType: string, featuredOnly: bool)
    | FindOne(objectType: string, slug: Option<string>)

  datatype FindOneResponse<T> = FindOneResponse(obj: T)  // the `object` field of a findOne response

  /**
   * What a collection query promises: the response's objects on success, the empty list
   * on a not-found error, and a throw with the query's message on any other error.
   */
  ghost predicate CollectionContract<T>(o: SdkOutcome<CosmicResponse<T>>, r: Fetched<seq<T>>, failure: string) {
    match o
    case Resolved(response) => r == Returned(response.objects)
    case Rejected(e) =>
      if e.Object? && "status" in e.props && e.props["status"] == Number(404.0)
      then r == Returned([])
      else r == Thrown(failure)
  }

  /** What a single-record lookup promises: the object, null on not-found, else a throw. */
  ghost predicate LookupContract<T>(o: SdkOutcome<FindOneResponse<T>>, r: Fetched<Option<T>>, failure: string) {
    match o
    case Resolved(response) => r == Returned(Some(response.obj))
    case Rejected(e) =>
      if e.Object? && "status" in e.props && e.props["status"] == Number(404.0)
      then r == Returned(None)
      else r == Thrown(failure)
  }

  /** The try/catch shared by the collection queries. */
  function CatchCollection<T>(o: SdkOutcome<CosmicResponse<T>>, failure: string): (r: Fetched<seq<T>>)
    ensures CollectionContract(o, r, failure)
  {
    match o
    case Resolved(response) => Returned(response.objects)
    case Rejected(e) => if IsNotFound(e) then Returned([]) else Thrown(failure)
  }

  /** The try/catch shared by the single-record lookups. */
  function CatchLookup<T>(o: SdkOutcome<FindOneResponse<T>>, failure: string): (r: Fetched<Option<T>>)
    ensures LookupContract(o, r, failure)
  {
    match o
    case Resolved(response) => Returned(Some(response.obj))
    case Rejected(e) => if IsNotFound(e) then Returned(None) else Thrown(failure)
  }

  function GetYouthHouses(sdk: Query -> SdkOutcome<CosmicResponse<YouthHouse>>): (r: Fetched<seq<YouthHouse>>)
    ensures CollectionContract(sdk(Find(YouthHousesType, false)), r, "Failed to fetch youth houses")
  {
    CatchCollection(sdk(Find(YouthHousesType, false)), "Failed to fetch youth houses")
  }

  function GetYouthHouseBySlug(sdk: Query -> SdkOutcome<FindOneResponse<YouthHouse>>, slug: string): (r: Fetched<Option<YouthHouse>>)
    ensures LookupContract(sdk(FindOne(YouthHousesType, Some(slug))), r, "Failed to fetch youth house")
  {
    CatchLookup(sdk(FindOne(YouthHousesType, Some(slug))), "Failed to fetch youth house")
  }

  function GetProjects(sdk: Query -> SdkOutcome<CosmicResponse<Project>>): (r: Fetched<seq<Project>>)
    ensures CollectionContract(sdk(Find(ProjectsType, false)), r, "Failed to fetch projects")
  {
    CatchCollection(sdk(Find(ProjectsType, false)), "Failed to fetch projects")
  }

  function GetProjectBySlug(sdk: Query -> SdkOutcome<FindOneResponse<Project>>, slug: string): (r: Fetched<Option<Project>>)
    ensures LookupContract(sdk(FindOne(ProjectsType, Some(slug))), r, "Failed to fetch project")
  {
    CatchLookup(sdk(FindOne(ProjectsType, Some(slug))), "Failed to fetch project")
  }

  function GetFeaturedProjects(sdk: Query -> SdkOutcome<CosmicResponse<Project>>): (r: Fetched<seq<Project>>)
    ensures CollectionContract(sdk(Find(ProjectsType, true)), r, "Failed to fetch featured projects")
  {
    CatchCollection(sdk(Find(ProjectsType, true)), "Failed to fetch featured projects")
  }

  function GetPages(sdk: Query -> SdkOutcome<CosmicResponse<Page>>): (r: Fetched<seq<Page>>)
    ensures CollectionContract(sdk(Find(PagesType, false)), r, "Failed to fetch pages")
  {
    CatchCollection(sdk(Find(PagesType, false)), "Failed to fetch pages")
  }

  function GetPageBySlug(sdk: Query -> SdkOutcome<FindOneResponse<Page>>, slug: string): (r: Fetched<Option<Page>>)
    ensures LookupContract(sdk(FindOne(PagesType, Some(slug))), r, "Failed to fetch page")
  {
    CatchLookup(sdk(FindOne(PagesType, Some(slug))), "Failed to fetch page")
  }

  function GetSiteSettings(sdk: Query -> SdkOutcome<FindOneResponse<SiteSettings>>): (r: Fetched<Option<SiteSettings>>)
    ensures LookupContract(sdk(FindOne(SiteSettingsType, None)), r, "Failed to fetch site settings")
  {
    CatchLookup(sdk(FindOne(SiteSettingsType, None)), "Failed to fetch site settings")
  }

  /**
   * A thrown string, null, a number or any other non-object is never read as "not found":
   * a query rejected with one of them always throws.
   */
  lemma NonObjectErrorsAlwaysThrow<T>(e: JsValue, failure: string)
    requires !e.Object?
    ensures CatchCollection<T>(Rejected(e), failure) == Thrown(failure)
    ensures CatchLookup<T>(Rejected(e), failure) == Thrown(failure)
  {
  }

  /**
   * An object error whose status is missing, or is anything other than the number 404
   * (the string "404" included), makes a query throw.
   */
  lemma OnlyStatus404IsNotFound<T>(props: map<string, JsValue>, failure: string)
    requires "status" !in props || props["status"] != Number(404.0)
    ensures CatchCollection<T>(Rejected(Object(props)), failure) == Thrown(failure)
    ensures CatchLookup<T>(Rejected(Object(props)), failure) == Thrown(failure)
  {
  }
}
