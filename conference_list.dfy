/**
 * The video-conference page: the search and filter predicate over the
 * conference list, the per-status tabs and the "mine" tab, and the label
 * shown for each conference type.
 */
module ConferenceList {
  import opened Wrappers
  import opened JsText

  datatype Status = Scheduled | Live | Ended

  datatype Conference = Conference(
    id: int,
    title: string,
    description: Option<string>,
    status: Status,
    kind: string,
    hostId: int,
    isRecorded: bool)

  /** The filter panel; `kind` is "all" or one conference type. */
  datatype Filters = Filters(kind: string, onlyMine: bool, onlyRecorded: bool)

  const InitialFilters := Filters("all", false, false)

  /** The signed-in user of the page (fixed in the page's data). */
  const CurrentUserId := 1

  function TypeText(kind: string): string
  {
    match kind
    case "class" => "Classe"
    case "individual" => "Individuel"
    case "admin" => "Administration"
    case "mixed" => "Mixte"
    case _ => "Conférence"
  }

  /** The four known types have their own, distinct labels; any other value gets the generic one. */
  lemma TypeTextSpec(kind: string)
    ensures TypeText(kind) == "Conférence" <==> kind !in {"class", "individual", "admin", "mixed"}
    ensures forall other :: other in {"class", "individual", "admin", "mixed"} && TypeText(other) == TypeText(kind) ==> other == kind
  {
  }

  predicate MatchesSearch(c: Conference, search: string) {
    search == "" || ContainsIgnoreCase(c.title, search) ||
    (c.description.Some? && c.description.value != "" && ContainsIgnoreCase(c.description.value, search))
  }

  predicate Kept(c: Conference, search: string, f: Filters) {
    MatchesSearch(c, search) &&
    (f.kind == "all" || c.kind == f.kind) &&
    (!f.onlyMine || c.hostId == CurrentUserId) &&
    (!f.onlyRecorded || c.isRecorded)
  }

  /** filteredConferences: the kept conferences, in list order. */
  function Filtered(cs: seq<Conference>, search: string, f: Filters): (r: seq<Conference>)
    ensures |r| <= |cs|
    ensures forall c :: c in r <==> c in cs && Kept(c, search, f)
  {
    if cs == [] then []
    else
      assert forall c :: c in cs <==> c == cs[0] || c in cs[1..];
      (if Kept(cs[0], search, f) then [cs[0]] else []) + Filtered(cs[1..], search, f)
  }

  /** One status tab: the filtered conferences with that status, in order. */
  function WithStatus(cs: seq<Conference>, st: Status): (r: seq<Conference>)
    ensures forall c :: c in r <==> c in cs && c.status == st
  {
    if cs == [] then []
    else
      assert forall c :: c in cs <==> c == cs[0] || c in cs[1..];
      (if cs[0].status == st then [cs[0]] else []) + WithStatus(cs[1..], st)
  }

  /** The "mine" tab: the filtered conferences hosted by the current user. */
  function HostedBy(cs: seq<Conference>, hostId: int): (r: seq<Conference>)
    ensures forall c :: c in r <==> c in cs && c.hostId == hostId
  {
    if cs == [] then []
    else
      assert forall c :: c in cs <==> c == cs[0] || c in cs[1..];
      (if cs[0].hostId == hostId then [cs[0]] else []) + HostedBy(cs[1..], hostId)
  }

  function Upcoming(cs: seq<Conference>, search: string, f: Filters): seq<Conference> {
    WithStatus(Filtered(cs, search, f), Scheduled)
  }

  function LiveNow(cs: seq<Conference>, search: string, f: Filters): seq<Conference> {
    WithStatus(Filtered(cs, search, f), Live)
  }

  function Past(cs: seq<Conference>, search: string, f: Filters): seq<Conference> {
    WithStatus(Filtered(cs, search, f), Ended)
  }

  function Mine(cs: seq<Conference>, search: string, f: Filters): seq<Conference> {
    HostedBy(Filtered(cs, search, f), CurrentUserId)
  }

  /** The three status lists split a list exactly: every entry lands in one of them, once. */
  lemma {:induction false} StatusPartition(cs: seq<Conference>)
    ensures multiset(WithStatus(cs, Scheduled)) + multiset(WithStatus(cs, Live)) + multiset(WithStatus(cs, Ended))
            == multiset(cs)
  {
    if cs != [] {
      StatusPartition(cs[1..]);
      assert cs == [cs[0]] + cs[1..];
    }
  }

  /** The upcoming, live and past tabs are disjoint and together show every filtered conference. */
  lemma TabsPartitionFiltered(cs: seq<Conference>, search: string, f: Filters)
    ensures multiset(Upcoming(cs, search, f)) + multiset(LiveNow(cs, search, f)) + multiset(Past(cs, search, f))
            == multiset(Filtered(cs, search, f))
    ensures forall c :: c in Upcoming(cs, search, f) ==> c !in LiveNow(cs, search, f) && c !in Past(cs, search, f)
    ensures forall c :: c in LiveNow(cs, search, f) ==> c !in Past(cs, search, f)
  {
    StatusPartition(Filtered(cs, search, f));
  }

  /** With the "only mine" filter on, the "mine" tab is the whole filtered list. */
  lemma OnlyMineIsMine(cs: seq<Conference>, search: string, f: Filters)
    requires f.onlyMine
    ensures Mine(cs, search, f) == Filtered(cs, search, f)
  {
    AllHostedIsIdentity(Filtered(cs, search, f), CurrentUserId);
  }

  lemma {:induction false} AllHostedIsIdentity(cs: seq<Conference>, hostId: int)
    requires forall c :: c in cs ==> c.hostId == hostId
    ensures HostedBy(cs, hostId) == cs
  {
    if cs != [] {
      AllHostedIsIdentity(cs[1..], hostId);
    }
  }

  /** The initial filters keep a conference iff it matches the search. */
  lemma InitialFiltersOnlySearch(c: Conference, search: string)
    ensures Kept(c, search, InitialFilters) <==> MatchesSearch(c, search)
  {
  }
}
