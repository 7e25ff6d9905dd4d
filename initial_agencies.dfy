/**
 * The hard-coded seed list the catalog starts from and merges stored records into
 * (src/contexts/AgencyContext.tsx:33-382). Every seed record has website "#" and the
 * three data flags false, and no point of contact, industry, location or lists.
 */
module InitialAgencies {
  import opened Wrappers
  import opened AgencyModel

  function Seed(id: string, name: string, initials: string, status: string,
                description: string, tags: seq<string>): AgencyData
  {
    AgencyData(id, name, initials, status, description, tags, Some("#"),
               Some(false), Some(false), Some(false), None, None, None, None, None, None, None)
  }

  /** The number of seed records. */
  const SeedCount := 29

  /** The seed record at position `i` of the seed list. */
  function SeedRecord(i: nat): AgencyData
    requires i < SeedCount
  {
    match i
    case 0 =>
      Seed("1", "ICliniq", "I", "in-network",
           "Healthcare Data Collection & Annotation",
           ["medical images collection/annotation", "patient queries collection/annotation", "diagnostic report collection/annotation", "video annotation"])
    case 1 =>
      Seed("2", "FutureBee AI", "FA", "in-network",
           "Data Collection And Annotation Services Across Multiple Domains",
           ["healthcare", "automotive", "retail", "finance", "agriculture", "crowd-as-a-service", "custom data collection"])
    case 2 =>
      Seed("3", "Macgence", "M", "in-network",
           "Data Licensing, Collection And Annotation Services Across Multiple Domains",
           ["conversation ai", "computer vision", "genai", "adas", "audio datasets licensing"])
    case 3 =>
      Seed("4", "Encord", "E", "in-network",
           "Multimodal Data Engine for Annotation & Curation",
           ["tooling partner", "230+ language", "partner network", "dicom annotation"])
    case 4 =>
      Seed("5", "C8C", "C", "In Pipeline",
           "Custom Voice Datasets Collection",
           ["cinematic expressive voice & video", "speech data collection in studio", "conversational video", "scripted content", "human simulations", "human transcription & translation"])
    case 5 =>
      Seed("6", "DataSeeds/Zedge", "D", "in-network",
           "Custom Image Collection",
           ["images and video collection", "crowd-as-a-service", "data licensing"])
    case 6 =>
      Seed("7", "Pulse.AI", "P", "in-network",
           "Data extraction API",
           ["ocr", "document extraction", "data extraction api", "tooling partner"])
    case 7 =>
      Seed("8", "Premier", "P", "in-progress",
           "Real-world Healthcare And Clinical Data Provider",
           ["hospital service and charge data", "emr", "insurance claims", "hospital purchasing and supply data", "data licensing"])
    case 8 =>
      Seed("9", "LXT", "L", "in-progress",
           "Global Crowd-fueled Data Provider",
           ["multilingual", "multi-modality", "data collection", "data annotation"])
    case 9 =>
      Seed("10", "Columbus Lang", "CL", "in-network",
           "Global language & localization services provider",
           ["human translation", "260+ languages", "data collection"])
    case 10 =>
      Seed("11", "Monisa Enterprise", "ME", "in-network",
           "translation, localization & data collection",
           ["multilingual", "translation", "data collection", "rare languages", "interpretation"])
    case 11 =>
      Seed("12", "Data Ocean", "DO", "in-progress",
           "Data Provider",
           ["data licensing"])
    case 12 =>
      Seed("13", "Health Verity", "HV", "in-progress",
           "Data Provider",
           ["data licensing"])
    case 13 =>
      Seed("14", "Wow", "W", "in-progress",
           "Data Provider",
           ["data licensing"])
    case 14 =>
      Seed("15", "Truveta", "T", "in-progress",
           "Data Provider",
           ["data licensing"])
    case 15 =>
      Seed("16", "Flatiron Health", "FH", "in-progress",
           "Data Provider",
           ["data licensing"])
    case 16 =>
      Seed("17", "Exact Data", "ED", "in-progress",
           "Data Provider",
           ["data licensing"])
    case 17 =>
      Seed("18", "Protege", "P", "in-progress",
           "Data Provider",
           ["data licensing"])
    case 18 =>
      Seed("19", "Segmed", "S", "in-progress",
           "Data Provider",
           ["data licensing"])
    case 19 =>
      Seed("20", "iMerit", "IM", "in-progress",
           "Data Provider",
           ["data licensing"])
    case 20 =>
      Seed("21", "Prolific", "P", "in-progress",
           "Data Provider",
           ["data licensing"])
    case 21 =>
      Seed("22", "Collinear", "C", "in-progress",
           "Data Provider",
           ["data licensing"])
    case 22 =>
      Seed("23", "Sermo", "S", "in-progress",
           "Data Provider",
           ["data licensing"])
    case 23 =>
      Seed("24", "Book Your Data", "BYD", "in-progress",
           "Data Provider",
           ["data licensing"])
    case 24 =>
      Seed("25", "Carbon Arc", "CA", "in-progress",
           "Data Provider",
           ["data licensing"])
    case 25 =>
      Seed("26", "TriNex", "T", "in-progress",
           "Data Provider",
           ["data licensing"])
    case 26 =>
      Seed("27", "IQVIA", "IQ", "in-progress",
           "Data Provider",
           ["data licensing"])
    case 27 =>
      Seed("28", "Roamler", "R", "in-progress",
           "Data Provider",
           ["data licensing"])
    case _ =>
      Seed("29", "Zyte", "Z", "in-progress",
           "Data Provider",
           ["data licensing"])
  }

  /** The seed list, in source order. */
  function Seeds(): (seeds: seq<AgencyData>)
    ensures |seeds| == SeedCount
    ensures forall i :: 0 <= i < SeedCount ==> seeds[i] == SeedRecord(i)
  {
    seq(SeedCount, i requires 0 <= i < SeedCount => SeedRecord(i))
  }
}
