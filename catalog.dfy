/** The image catalog, the scan results and the templates, and the helpers that
    look records up and filter the catalog. Each helper reads a module-level
    array in frontend/src/mockdata.ts; here that array is a parameter. */
module Catalog {
  import opened Text
  import opened Seqs

  // ---------------------------------------------------------------------------
  // Records
  // ---------------------------------------------------------------------------

  /** One entry of the Docker Hub catalog. */
  datatype DockerImage = DockerImage(
    id: string,
    name: string,
    description: string,
    official: bool,
    verified: bool,
    pulls: nat,
    stars: nat,
    logo: Option<string>,
    category: string,
    tags: seq<string>,
    latestTag: string)

  /** Counts of vulnerabilities by severity, plus their stated total. */
  datatype VulnerabilitySummary = VulnerabilitySummary(
    critical: int,
    high: int,
    medium: int,
    low: int,
    total: int)

  datatype ScanStatus = Completed | Scanning | Failed

  /** The result of scanning one image at one tag. */
  datatype ScanResult = ScanResult(
    scanId: string,
    image: string,
    tag: string,
    status: ScanStatus,
    timestamp: string,
    summary: VulnerabilitySummary)

  /** A ready-made compose stack. */
  datatype Template = Template(
    id: string,
    name: string,
    description: string,
    category: string,
    tags: seq<string>,
    icon: Option<string>,
    services: nat,
    popularity: nat,
    version: string,
    lastUpdated: string,
    author: string)

  // ---------------------------------------------------------------------------
  // Finders
  // ---------------------------------------------------------------------------

  /** `getMockImageByName`: the first image whose name is exactly `name`. */
  function GetImageByName(images: seq<DockerImage>, name: string): (r: Option<DockerImage>)
    ensures r.None? <==> forall i | 0 <= i < |images| :: images[i].name != name
    ensures r.Some? ==> exists k | 0 <= k < |images| ::
      images[k] == r.value && r.value.name == name && forall j | 0 <= j < k :: images[j].name != name
  {
    Find(images, (img: DockerImage) => img.name == name)
  }

  /** `getMockScanResult`: the first scan of exactly this image and this tag. */
  function GetScanResult(scans: seq<ScanResult>, image: string, tag: string): (r: Option<ScanResult>)
    ensures r.None? <==> forall i | 0 <= i < |scans| :: !(scans[i].image == image && scans[i].tag == tag)
    ensures r.Some? ==> exists k | 0 <= k < |scans| ::
      scans[k] == r.value && r.value.image == image && r.value.tag == tag &&
      forall j | 0 <= j < k :: !(scans[j].image == image && scans[j].tag == tag)
  {
    Find(scans, (scan: ScanResult) => scan.image == image && scan.tag == tag)
  }

  /** `getMockTemplateById`: the first template whose id is exactly `id`. */
  function GetTemplateById(templates: seq<Template>, id: string): (r: Option<Template>)
    ensures r.None? <==> forall i | 0 <= i < |templates| :: templates[i].id != id
    ensures r.Some? ==> exists k | 0 <= k < |templates| ::
      templates[k] == r.value && r.value.id == id && forall j | 0 <= j < k :: templates[j].id != id
  {
    Find(templates, (tpl: Template) => tpl.id == id)
  }

  /** A name that occurs in the catalog is found, and what is found is the
      record at the first position holding that name. */
  lemma GetImageByNameFirst(images: seq<DockerImage>, k: nat)
    requires k < |images|
    requires forall j | 0 <= j < k :: images[j].name != images[k].name
    ensures GetImageByName(images, images[k].name) == Some(images[k])
  {
    FindAt(images, (img: DockerImage) => img.name == images[k].name, k);
  }

  // ---------------------------------------------------------------------------
  // Category filter
  // ---------------------------------------------------------------------------

  /** The category that stands for "no filtering". */
  const AllCategories: string := "All"

  predicate InCategory(img: DockerImage, category: string) {
    img.category == category
  }

  /** `filterImagesByCategory`: the whole catalog for "All"; otherwise the
      images of exactly that category, in catalog order. */
  function FilterImagesByCategory(images: seq<DockerImage>, category: string): (r: seq<DockerImage>)
    ensures category == AllCategories ==> r == images
    ensures category != AllCategories ==>
      forall i | 0 <= i < |r| :: r[i] in images && r[i].category == category
    ensures category != AllCategories ==>
      forall i | 0 <= i < |images| :: images[i].category == category ==> images[i] in r
  {
    if category == AllCategories then images else Filter(images, img => InCategory(img, category))
  }

  /** The category filter never reorders and never invents an image. */
  lemma CategoryFilterIsSubsequence(images: seq<DockerImage>, category: string)
    ensures IsSubsequence(FilterImagesByCategory(images, category), images)
  {
    if category == AllCategories {
      IsSubsequenceReflexive(images);
    } else {
      FilterIsSubsequence(images, img => InCategory(img, category));
    }
  }

  /** The category filter works image by image: filtering a concatenation is
      the concatenation of the filtered parts. */
  lemma CategoryFilterAppend(a: seq<DockerImage>, b: seq<DockerImage>, category: string)
    ensures FilterImagesByCategory(a + b, category) ==
            FilterImagesByCategory(a, category) + FilterImagesByCategory(b, category)
  {
    if category != AllCategories {
      FilterAppend(a, b, img => InCategory(img, category));
    }
  }

  /** One image passes the filter exactly when the category is "All" or its own. */
  lemma CategoryFilterSingleton(img: DockerImage, category: string)
    ensures FilterImagesByCategory([img], category) ==
            if category == AllCategories || img.category == category then [img] else []
  {
    if category != AllCategories {
      FilterSingleton(img, x => InCategory(x, category));
    }
  }

  // ---------------------------------------------------------------------------
  // Search
  // ---------------------------------------------------------------------------

  /** The search test for one image, given the already lower-cased query:
      the name or the description, lower-cased, includes it. Tags are not
      searched and the query is not trimmed. */
  predicate MatchesQuery(img: DockerImage, lowerQuery: string): (r: bool)
    ensures lowerQuery == "" ==> r
    ensures r ==> |lowerQuery| <= |img.name| || |lowerQuery| <= |img.description|
  {
    Includes(Lower(img.name), lowerQuery) || Includes(Lower(img.description), lowerQuery)
  }

  /** `searchImages`: the images whose lower-cased name or description
      includes the lower-cased query, in catalog order. */
  function SearchImages(images: seq<DockerImage>, query: string): (r: seq<DockerImage>)
    ensures forall i | 0 <= i < |r| :: (r[i] in images &&
      (Includes(Lower(r[i].name), Lower(query)) || Includes(Lower(r[i].description), Lower(query))))
    ensures forall i | 0 <= i < |images| ::
      (Includes(Lower(images[i].name), Lower(query)) || Includes(Lower(images[i].description), Lower(query)))
      ==> images[i] in r
  {
    var lowerQuery := Lower(query);
    Filter(images, img => MatchesQuery(img, lowerQuery))
  }

  /** Search never reorders and never invents an image. */
  lemma SearchIsSubsequence(images: seq<DockerImage>, query: string)
    ensures IsSubsequence(SearchImages(images, query), images)
  {
    FilterIsSubsequence(images, img => MatchesQuery(img, Lower(query)));
  }

  /** Search works image by image: searching a concatenation is the
      concatenation of the searched parts. */
  lemma SearchAppend(a: seq<DockerImage>, b: seq<DockerImage>, query: string)
    ensures SearchImages(a + b, query) == SearchImages(a, query) + SearchImages(b, query)
  {
    FilterAppend(a, b, img => MatchesQuery(img, Lower(query)));
  }

  /** The empty query is included in every text, so it keeps the whole catalog. */
  lemma SearchEmptyQuery(images: seq<DockerImage>)
    ensures SearchImages(images, "") == images
  {
    forall i | 0 <= i < |images| ensures MatchesQuery(images[i], Lower("")) {
      IncludesEmpty(Lower(images[i].name));
    }
    FilterKeepsAll(images, img => MatchesQuery(img, Lower("")));
  }

  /** Search is case-insensitive: queries that agree once lower-cased select
      the same images. */
  lemma SearchCaseInsensitive(images: seq<DockerImage>, q1: string, q2: string)
    requires Lower(q1) == Lower(q2)
    ensures SearchImages(images, q1) == SearchImages(images, q2)
  {
  }

  /** Searching for an image's own name, in any letter case, finds it. */
  lemma SearchFindsOwnName(images: seq<DockerImage>, k: nat, query: string)
    requires k < |images|
    requires Lower(query) == Lower(images[k].name)
    ensures images[k] in SearchImages(images, query)
  {
    IncludesSelf(Lower(images[k].name));
  }
}
