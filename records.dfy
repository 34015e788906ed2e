/** The entities the pipeline passes around. Timestamps are milliseconds since
 *  the epoch; coordinates and colours are carried through unchanged. */
module Records {
  import opened Base
  import opened OrderedDict
  import opened StableSort

  const DAY_MS: nat := 86_400_000

  /** One entry of an organisation's listing, as the model hub returns it.
   *  A missing `id`/`modelId` is the empty string (both are falsy). */
  datatype RawModel = RawModel(
    id: string,
    modelId: string,
    downloads: Option<nat>,
    likes: Option<nat>,
    tags: Option<seq<string>>,
    pipelineTag: Option<string>,
    createdAt: Option<int>,
    lastModified: Option<int>,
    safetensorsTotal: Option<nat>)

  /** The normalised record every later stage works on. */
  datatype Model = Model(
    id: string,
    hfId: string,
    name: string,
    company: string,
    companyId: string,
    createdAt: Option<int>,
    lastModified: Option<int>,
    parameters: string,
    modelType: string,
    openSource: bool,
    downloads: nat,
    downloadsFormatted: string,
    likes: nat,
    tags: seq<string>,
    pipelineTag: string,
    description: string,
    highlight: Option<string>)

  /** The key of the newest-first order `new Date(b.createdAt) - new Date(a.createdAt)`.
   *  An undated model ranks below every dated one. */
  function ByReleaseDate(): Model -> Rank {
    (m: Model) => match m.createdAt
         case None => Unranked
         case Some(t) => Ranked(t as real)
  }

  /** A row of the static organisation-to-company table. */
  datatype CompanyInfo = CompanyInfo(name: string, id: string, hq: string, lat: real, lng: real, founded: int)

  datatype Company = Company(
    id: string,
    name: string,
    hq: string,
    lat: real,
    lng: real,
    color: string,
    modelsCount: nat,
    founded: int,
    totalDownloads: nat,
    totalLikes: nat)

  datatype ResearchCenter = ResearchCenter(name: string, lat: real, lng: real)

  /** An arc from a company to a research center. */
  datatype Connection = Connection(
    startLat: real,
    startLng: real,
    endLat: real,
    endLng: real,
    color: string,
    company: string,
    center: string)

  datatype LiveUpdate = LiveUpdate(time: string, text: string, company: string)

  /** Everything one fetch cycle produces, and what the cache stores. */
  datatype Dataset = Dataset(
    companies: seq<Company>,
    modelReleases: seq<Model>,
    connections: seq<Connection>,
    liveUpdates: seq<LiveUpdate>,
    modelsByOrg: Dict<seq<Model>>,
    fetchedAt: int)
}
