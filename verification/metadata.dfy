/**
 * The NFT metadata generator (`MetadataService`). The configured public
 * domain and the clock reading are parameters: `env` is the value of the
 * NEXT_PUBLIC_DOMAIN environment variable (None when unset) and
 * `timestamp` is the millisecond clock value the generator reads.
 */
module Metadata {
  import opened Wrappers

  datatype Attribute = Attribute(traitType: string, value: string)
  datatype File = File(uri: string, fileType: string)
  datatype Creator = Creator(address: string, share: nat)
  datatype Properties = Properties(files: seq<File>, category: string, creators: seq<Creator>)
  datatype Collection = Collection(name: string, family: string)

  /** The `NFTMetadata` record; `animationUrl` is the optional field the generator never sets. */
  datatype NFTMetadata = NFTMetadata(
    name: string,
    symbol: string,
    description: string,
    sellerFeeBasisPoints: nat,
    image: string,
    animationUrl: Option<string>,
    externalUrl: string,
    uri: string,
    attributes: seq<Attribute>,
    properties: Properties,
    collection: Collection)

  /**
   * The only failure: the domain variable is unset or empty (the source throws
   * "NEXT_PUBLIC_DOMAIN environment variable is not set").
   */
  datatype ConfigError = DomainNotSet

  /** Royalties are expressed in basis points; 10000 is 100%. */
  const MaxBasisPoints: nat := 10000
  const RoyaltyBasisPoints: nat := 500

  /** The trait types of the generated attributes, in the order they are emitted. */
  const TraitOrder: seq<string> :=
    ["Series", "Matrix Code Style", "AI Artwork Level", "Background", "Rarity"]

  // ---------------------------------------------------------------------------
  // Decimal rendering of the timestamp (a template literal `${timestamp}`)
  // ---------------------------------------------------------------------------

  predicate IsDigit(c: char) { '0' <= c <= '9' }

  predicate AllDigits(s: string) { forall i :: 0 <= i < |s| ==> IsDigit(s[i]) }

  function DigitChar(d: nat): (c: char)
    requires d < 10
    ensures IsDigit(c)
  {
    ('0' as int + d) as char
  }

  function DigitValue(c: char): (d: nat)
    requires IsDigit(c)
    ensures d < 10 && DigitChar(d) == c
  {
    c as int - '0' as int
  }

  /** The decimal numeral of `n`, most significant digit first. */
  function Decimal(n: nat): (s: string)
    ensures |s| >= 1 && AllDigits(s)
    ensures s[0] == '0' ==> n == 0
  {
    if n < 10 then [DigitChar(n)] else Decimal(n / 10) + [DigitChar(n % 10)]
  }

  /** Reads a string of decimal digits back as a number (the inverse of Decimal). */
  function ParseDecimal(s: string): nat
    requires AllDigits(s)
  {
    if s == [] then 0 else 10 * ParseDecimal(s[..|s| - 1]) + DigitValue(s[|s| - 1])
  }

  lemma {:induction false} ParseDecimalInvertsDecimal(n: nat)
    ensures ParseDecimal(Decimal(n)) == n
  {
    if n >= 10 {
      ParseDecimalInvertsDecimal(n / 10);
      var s := Decimal(n);
      assert s[..|s| - 1] == Decimal(n / 10);
    }
  }

  /** Distinct numbers have distinct numerals. */
  lemma DecimalInjective(a: nat, b: nat)
    ensures Decimal(a) == Decimal(b) ==> a == b
  {
    ParseDecimalInvertsDecimal(a);
    ParseDecimalInvertsDecimal(b);
  }

  // ---------------------------------------------------------------------------
  // Domain and URL getters
  // ---------------------------------------------------------------------------

  /** `getDomain`: fails when the variable is unset or is the empty string (`!domain`). */
  function GetDomain(env: Option<string>): (r: Result<string, ConfigError>)
    ensures r.Ok? <==> env.Some? && env.value != ""
    ensures r.Ok? ==> r.value == env.value
  {
    if env.None? || env.value == "" then Err(DomainNotSet) else Ok(env.value)
  }

  /** `baseUrl`: the https origin of the configured domain. */
  function BaseUrl(env: Option<string>): (r: Result<string, ConfigError>)
    ensures r.Ok? <==> GetDomain(env).Ok?
    ensures r.Ok? ==> r.value == "https://" + env.value
  {
    match GetDomain(env)
    case Ok(domain) => Ok("https://" + domain)
    case Err(e) => Err(e)
  }

  /** `baseMetadataUrl`: the directory the metadata documents are addressed under. */
  function BaseMetadataUrl(env: Option<string>): (r: Result<string, ConfigError>)
    ensures r.Ok? <==> GetDomain(env).Ok?
    ensures r.Ok? ==> BaseUrl(env).value <= r.value
    ensures r.Ok? ==> r.value == "https://" + env.value + "/nft/metadata"
  {
    match BaseUrl(env)
    case Ok(base) => Ok(base + "/nft/metadata")
    case Err(e) => Err(e)
  }

  // ---------------------------------------------------------------------------
  // The record's structural invariants
  // ---------------------------------------------------------------------------

  /** The sum of the creators' shares. */
  function SharesTotal(creators: seq<Creator>): nat
  {
    if creators == [] then 0 else creators[0].share + SharesTotal(creators[1..])
  }

  /**
   * The shape every generated record has: the five attributes in their fixed
   * order, shares that add up to 100, a royalty within 0..10000 basis points,
   * one image file that is the record's image, and an image under the
   * external URL.
   */
  predicate WellFormed(m: NFTMetadata)
  {
    && |m.attributes| == |TraitOrder|
    && (forall i :: 0 <= i < |TraitOrder| ==> m.attributes[i].traitType == TraitOrder[i])
    && SharesTotal(m.properties.creators) == 100
    && m.sellerFeeBasisPoints <= MaxBasisPoints
    && |m.properties.files| == 1
    && m.properties.files[0].uri == m.image
    && m.externalUrl <= m.image
  }

  // ---------------------------------------------------------------------------
  // generateMetadata
  // ---------------------------------------------------------------------------

  /** The file name of the metadata document for a clock reading. */
  function MetadataFilename(timestamp: nat): string
  {
    "nft-" + Decimal(timestamp) + ".json"
  }

  function Description(): string
  {
    // The source file spells the dash as the three characters below.
    "Enter the code. Unlock hidden realms of AI-driven cyberpunk. Rewrite your reality"
      + "\U{00E2}\U{20AC}\U{201D}" + "join the NeuroMatrix"
  }

  /**
   * `generateMetadata(creatorAddress)` with the domain variable and the clock
   * reading made explicit. It fails exactly when no domain is configured, and
   * otherwise returns a well-formed record whose `uri` is laid out as
   * https://<domain>/nft/metadata/nft-<timestamp>.json.
   */
  function GenerateMetadata(env: Option<string>, creatorAddress: string, timestamp: nat)
    : (r: Result<NFTMetadata, ConfigError>)
    ensures r.Err? <==> env.None? || env.value == ""
    ensures r.Err? ==> r.error == DomainNotSet
    ensures r.Ok? ==> WellFormed(r.value)
    ensures r.Ok? ==> r.value.uri
                      == "https://" + env.value + "/nft/metadata/nft-" + Decimal(timestamp) + ".json"
    ensures r.Ok? ==> r.value.externalUrl == "https://" + env.value
    ensures r.Ok? ==> r.value.properties.creators == [Creator(creatorAddress, 100)]
    ensures r.Ok? ==> r.value.sellerFeeBasisPoints == RoyaltyBasisPoints
  {
    match BaseUrl(env)
    case Err(e) => Err(e)
    case Ok(base) =>
      var m := Record(base, BaseMetadataUrl(env).value, creatorAddress, timestamp);
      RecordWellFormed(base, BaseMetadataUrl(env).value, creatorAddress, timestamp);
      assert m.uri == "https://" + env.value + "/nft/metadata/nft-" + Decimal(timestamp) + ".json";
      Ok(m)
  }

  /** The fixed attribute list, in emission order. */
  function Attributes(): seq<Attribute>
  {
    [
      Attribute("Series", "NeuroMatrix Pass"),
      Attribute("Matrix Code Style", "Green Rain"),
      Attribute("AI Artwork Level", "Ultra"),
      Attribute("Background", "Holographic Tech"),
      Attribute("Rarity", "Rare")
    ]
  }

  /** The object literal of `generateMetadata`, given the two URL getters' values. */
  function Record(base: string, metadataUrl: string, creatorAddress: string, timestamp: nat): NFTMetadata
  {
    var image := base + "/neuromatrixpass.jpeg";
    NFTMetadata(
      name := "NeuroMatrix Pass",
      symbol := "NMP",
      description := Description(),
      sellerFeeBasisPoints := RoyaltyBasisPoints,
      image := image,
      animationUrl := None,
      externalUrl := base,
      uri := metadataUrl + "/" + MetadataFilename(timestamp),
      attributes := Attributes(),
      properties := Properties(
        files := [File(image, "image/jpeg")],
        category := "image",
        creators := [Creator(creatorAddress, 100)]),
      collection := Collection("NeuroMatrix NFT Collection", "NeuroMatrix"))
  }

  lemma RecordWellFormed(base: string, metadataUrl: string, creatorAddress: string, timestamp: nat)
    ensures WellFormed(Record(base, metadataUrl, creatorAddress, timestamp))
  {
  }

  /** A common prefix and suffix cancel out of an equality of strings. */
  lemma CancelAround(p: string, x: string, y: string, q: string)
    requires p + x + q == p + y + q
    ensures x == y
  {
    var s := p + x + q;
    assert |x| == |y|;
    assert x == s[|p|..|p| + |x|];
    assert y == (p + y + q)[|p|..|p| + |y|];
  }

  /**
   * Two generations that differ only in the clock reading agree on every
   * field but `uri`, and their `uri`s differ whenever the readings do.
   */
  lemma TimestampOnlyAffectsUri(env: Option<string>, creatorAddress: string, t1: nat, t2: nat)
    ensures GenerateMetadata(env, creatorAddress, t1).Ok? == GenerateMetadata(env, creatorAddress, t2).Ok?
    ensures GenerateMetadata(env, creatorAddress, t1).Ok? ==>
              var m1, m2 := GenerateMetadata(env, creatorAddress, t1).value,
                            GenerateMetadata(env, creatorAddress, t2).value;
              && m1.(uri := m2.uri) == m2
              && (t1 != t2 <==> m1.uri != m2.uri)
  {
    var r1, r2 := GenerateMetadata(env, creatorAddress, t1), GenerateMetadata(env, creatorAddress, t2);
    if r1.Ok? && r1.value.uri == r2.value.uri {
      var prefix := "https://" + env.value + "/nft/metadata/nft-";
      CancelAround(prefix, Decimal(t1), Decimal(t2), ".json");
      DecimalInjective(t1, t2);
    }
  }

  /**
   * The creator address reaches only the address of the single creator
   * entry: every other field is independent of it.
   */
  lemma CreatorOnlyAffectsCreatorAddress(env: Option<string>, c1: string, c2: string, timestamp: nat)
    ensures GenerateMetadata(env, c1, timestamp).Ok? == GenerateMetadata(env, c2, timestamp).Ok?
    ensures GenerateMetadata(env, c1, timestamp).Ok? ==>
              var m1, m2 := GenerateMetadata(env, c1, timestamp).value,
                            GenerateMetadata(env, c2, timestamp).value;
              && m1.properties.creators[0].address == c1
              && m2 == m1.(properties := m1.properties.(creators := [m1.properties.creators[0].(address := c2)]))
  {
  }
}
