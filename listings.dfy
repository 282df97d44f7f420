/** The listing fetcher's mapping step (`getListings` in main.go): every decoded
    search-result node becomes one normalized `Listing`. The HTTP request and the
    JSON decoding are outside the model; the decoded nodes are its input. */
module Listings {
  import opened Outcomes

  /** A float64 kept as its 64-bit IEEE pattern: the room count is only copied. */
  datatype Float64 = Float64(bits: bv64)

  /** One entry of a node's `uploads` array. */
  datatype Upload = Upload(url: string, order: int)

  /** A node's nested `location` object. */
  datatype Location = Location(locality: string, route: string)

  /** One decoded element of `data.homeIndexSearch.documents.nodes`. */
  datatype Node = Node(
    id: string,
    title: string,
    description: string,
    rent: int,
    roomCount: Float64,
    squareMeters: int,
    startDate: string,
    location: Location,
    uploads: seq<Upload>)

  /** The normalized listing; `startDate` is the field the source calls `StateDate`. */
  datatype Listing = Listing(
    id: string,
    title: string,
    description: string,
    rent: int,
    imageURL: string,
    link: string,
    location: string,
    roomCount: Float64,
    startDate: string,
    squareMeters: int)

  /** The fixed template a listing's link is built from. */
  const HomeURLPrefix := "https://qasa.se/home/"

  /** `k` is the first position of `us` holding the smallest `order`. */
  ghost predicate IsFirstMinimum(us: seq<Upload>, k: int) {
    && 0 <= k < |us|
    && (forall j :: 0 <= j < |us| ==> us[k].order <= us[j].order)
    && (forall j :: 0 <= j < k ==> us[k].order < us[j].order)
  }

  lemma FirstMinimumUnique(us: seq<Upload>, k1: int, k2: int)
    requires IsFirstMinimum(us, k1) && IsFirstMinimum(us, k2)
    ensures k1 == k2
  {
    assert us[k1].order == us[k2].order;
  }

  /** The position a left-to-right scan with a strict `<` settles on. */
  function FirstMinIndex(us: seq<Upload>): (k: nat)
    requires |us| > 0
    ensures IsFirstMinimum(us, k)
    decreases |us|
  {
    if |us| == 1 then 0
    else
      var k := FirstMinIndex(us[..|us| - 1]);
      if us[|us| - 1].order < us[k].order then |us| - 1 else k
  }

  /** The image a listing shows: empty without uploads, otherwise the URL of the
      first upload whose `order` is smallest. */
  function ImageURL(us: seq<Upload>): (url: string)
    ensures us == [] ==> url == ""
    ensures us != [] ==> exists k :: IsFirstMinimum(us, k) && url == us[k].url
  {
    if us == [] then "" else us[FirstMinIndex(us)].url
  }

  /** The location label: `route + ", " + locality` when there is a route, else the locality. */
  function LocationLabel(loc: Location): (text: string)
    ensures |text| == (if loc.route == "" then 0 else |loc.route| + 2) + |loc.locality|
    ensures text[|text| - |loc.locality|..] == loc.locality
    ensures loc.route != "" ==> text[..|loc.route|] == loc.route && text[|loc.route|..|loc.route| + 2] == ", "
  {
    if loc.route != "" then loc.route + ", " + loc.locality else loc.locality
  }

  /** For a fixed locality, the label determines the route, empty or not. */
  lemma LocationLabelDeterminesRoute(locality: string, r1: string, r2: string)
    requires LocationLabel(Location(locality, r1)) == LocationLabel(Location(locality, r2))
    ensures r1 == r2
  {
  }

  /** The listing's detail link, derived from its id. */
  function Link(id: string): (link: string)
    ensures |link| == |HomeURLPrefix| + |id|
    ensures link[..|HomeURLPrefix|] == HomeURLPrefix && link[|HomeURLPrefix|..] == id
  {
    HomeURLPrefix + id
  }

  /** Distinct ids give distinct links. */
  lemma LinkInjective(a: string, b: string)
    requires Link(a) == Link(b)
    ensures a == b
  {
  }

  /** The listing one node becomes. */
  function ToListing(node: Node): (l: Listing)
    ensures l.id == node.id && l.title == node.title && l.description == node.description
    ensures l.rent == node.rent && l.roomCount == node.roomCount
    ensures l.startDate == node.startDate && l.squareMeters == node.squareMeters
    ensures node.uploads == [] ==> l.imageURL == ""
    ensures node.uploads != [] ==> exists k :: IsFirstMinimum(node.uploads, k) && l.imageURL == node.uploads[k].url
    ensures |l.link| == |HomeURLPrefix| + |node.id|
    ensures l.link[..|HomeURLPrefix|] == HomeURLPrefix && l.link[|HomeURLPrefix|..] == node.id
    ensures l.location == LocationLabel(node.location)
  {
    Listing(
      id := node.id,
      title := node.title,
      description := node.description,
      rent := node.rent,
      imageURL := ImageURL(node.uploads),
      link := Link(node.id),
      location := LocationLabel(node.location),
      roomCount := node.roomCount,
      startDate := node.startDate,
      squareMeters := node.squareMeters)
  }

  /** The image-selection loop: start from the first upload and replace the
      candidate only on a strictly smaller `order`. */
  method SelectImage(uploads: seq<Upload>) returns (imageURL: string)
    ensures imageURL == ImageURL(uploads)
  {
    imageURL := "";
    if |uploads| > 0 {
      var minOrder := uploads[0].order;
      imageURL := uploads[0].url;
      ghost var best := 0;
      for i := 0 to |uploads|
        invariant best == if i == 0 then 0 else FirstMinIndex(uploads[..i])
        invariant 0 <= best < |uploads|
        invariant minOrder == uploads[best].order && imageURL == uploads[best].url
      {
        assert i > 0 ==> uploads[..i + 1][..i] == uploads[..i];
        if uploads[i].order < minOrder {
          minOrder := uploads[i].order;
          imageURL := uploads[i].url;
          best := i;
        }
      }
      assert uploads[..|uploads|] == uploads;
    }
  }

  /** The mapping loop: one listing per node, appended in node order. */
  method MapNodes(nodes: seq<Node>) returns (listings: seq<Listing>)
    ensures |listings| == |nodes|
    ensures forall i :: 0 <= i < |nodes| ==> listings[i] == ToListing(nodes[i])
  {
    listings := [];
    for n := 0 to |nodes|
      invariant |listings| == n
      invariant forall i :: 0 <= i < n ==> listings[i] == ToListing(nodes[i])
    {
      var node := nodes[n];
      var imageURL := SelectImage(node.uploads);
      var location := node.location.locality;
      if node.location.route != "" {
        location := node.location.route + ", " + location;
      }
      var listing := Listing(
        id := node.id,
        title := node.title,
        description := node.description,
        rent := node.rent,
        imageURL := imageURL,
        link := HomeURLPrefix + node.id,
        location := location,
        roomCount := node.roomCount,
        startDate := node.startDate,
        squareMeters := node.squareMeters);
      listings := listings + [listing];
    }
  }

  /** `getListings` after decoding: a failed request or decode fails the whole
      fetch, otherwise every node is mapped. */
  method GetListings(response: Fetch<seq<Node>>) returns (result: Fetch<seq<Listing>>)
    ensures result.Err? <==> response.Err?
    ensures response.Ok? ==> |result.value| == |response.value|
    ensures response.Ok? ==>
      forall i :: 0 <= i < |response.value| ==> result.value[i] == ToListing(response.value[i])
  {
    match response
    case Err =>
      result := Err;
    case Ok(nodes) =>
      var listings := MapNodes(nodes);
      result := Ok(listings);
  }
}
