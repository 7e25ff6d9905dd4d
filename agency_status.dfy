/**
 * The fallback status table, consulted for agencies whose record carries no
 * status, and the in-network test built on it.
 */
module AgencyStatus {
  import opened Wrappers

  const InNetwork := "in-network"
  const InProgress := "in-progress"
  const InPipeline := "In Pipeline"

  /** The fallback table, keyed by exact agency name. */
  const StatusTable: map<string, string> := map[
    "ICliniq" := InNetwork,
    "FutureBee AI" := InNetwork,
    "Macgence" := InNetwork,
    "Encord" := InNetwork,
    "C8C" := InPipeline,
    "DataSeeds" := InNetwork,
    "DataSeeds/Zedge" := InNetwork,
    "Pulse.AI" := InNetwork,
    "Premier" := InProgress,
    "LXT" := InProgress,
    "Columbus Lang" := InNetwork,
    "Monisa Enterprise" := InNetwork,
    "Data Ocean" := InProgress,
    "Health Verity" := InProgress,
    "Wow" := InProgress,
    "Truveta" := InProgress,
    "Flatiron Health" := InProgress,
    "Exact Data" := InProgress,
    "Protege" := InProgress,
    "Segmed" := InProgress,
    "iMerit" := InProgress,
    "IMerit" := InProgress,
    "Prolific" := InProgress,
    "Collinear" := InProgress,
    "Sermo" := InProgress,
    "Book Your Data" := InProgress,
    "Carbon Arc" := InProgress,
    "TriNex" := InProgress,
    "IQVIA" := InProgress,
    "Roamler" := InProgress,
    "Zyte" := InProgress
  ]

  /** The names the table puts in the network. */
  const InNetworkNames: set<string> := {
    "ICliniq", "FutureBee AI", "Macgence", "Encord", "DataSeeds", "DataSeeds/Zedge",
    "Pulse.AI", "Columbus Lang", "Monisa Enterprise"
  }

  /** `agencyStatusMap[name] || "in-progress"`: the table's status, or "in-progress" for a
      name it lacks (or maps to an empty status). */
  function GetAgencyStatus(agencyName: string): (status: string)
    ensures agencyName !in StatusTable ==> status == InProgress
    ensures agencyName in StatusTable && StatusTable[agencyName] != "" ==> status == StatusTable[agencyName]
    ensures status != ""
  {
    if agencyName in StatusTable && StatusTable[agencyName] != "" then StatusTable[agencyName]
    else InProgress
  }

  /** Whether the contact button is shown for the agency. */
  function IsInNetwork(agencyName: string): (b: bool)
    ensures b <==> GetAgencyStatus(agencyName) == InNetwork
  {
    GetAgencyStatus(agencyName) == InNetwork
  }

  /** The record's own status when it is a non-empty string, the table's otherwise. */
  function GetAgencyStatusFromContext(agencyName: string, agencyStatus: Option<string>): (status: string)
    ensures agencyStatus.Some? && agencyStatus.value != "" ==> status == agencyStatus.value
    ensures agencyStatus.None? || agencyStatus.value == "" ==> status == GetAgencyStatus(agencyName)
  {
    if agencyStatus.Some? && agencyStatus.value != "" then agencyStatus.value
    else GetAgencyStatus(agencyName)
  }

  /** Exactly the nine table entries marked in-network are in the network. */
  lemma InNetworkExactly(agencyName: string)
    ensures IsInNetwork(agencyName) <==> agencyName in InNetworkNames
  {
    if agencyName in InNetworkNames {
      InNetworkNamesAreInTable(agencyName);
    } else {
      InNetworkEntriesAreNamed(agencyName);
    }
  }

  lemma InNetworkNamesAreInTable(agencyName: string)
    requires agencyName in InNetworkNames
    ensures agencyName in StatusTable && StatusTable[agencyName] == InNetwork
  {
  }

  lemma InNetworkEntriesAreNamed(agencyName: string)
    ensures agencyName in StatusTable && StatusTable[agencyName] == InNetwork ==> agencyName in InNetworkNames
  {
  }

  /** A name the table lacks is never in the network. */
  lemma UnknownNameNotInNetwork(agencyName: string)
    requires agencyName !in StatusTable
    ensures !IsInNetwork(agencyName)
  {
  }

  /** The lookup is exact: a name that differs only in letter case is another key. */
  lemma LookupIsCaseSensitive()
    ensures GetAgencyStatus("ICliniq") == InNetwork
    ensures GetAgencyStatus("iCliniq") == InProgress
    ensures "iMerit" in StatusTable && "IMerit" in StatusTable
  {
    assert "iCliniq" !in StatusTable;
  }
}
