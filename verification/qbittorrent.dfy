/** What qBittorrent holds, and when an exact query answers "observed". */
module Qbittorrent {
  import opened Common
  import opened FenceEntry

  /** `tags` are the tags that start with `fence:`; `amountLeft` may be missing from an answer. */
  datatype Torrent = Torrent(
    category: string,
    savePath: string,
    tags: set<string>,
    state: string,
    size: int,
    magnet: bool,
    amountLeft: Option<int>,
    complete: bool,
    totalSize: int,
    downloaded: int,
    availability: real,
    peers: int
  )

  /** An answer about an exactly owned torrent. */
  datatype Health = Health(metadataKnown: bool, downloaded: nat, availability: real, peers: nat)

  type Torrents = map<string, Torrent>

  datatype Observation = Absent | Unknown | MetadataPending | Observed(bytes: int, remaining: Option<int>)

  datatype ActivityObservation = ActivityAbsent | ActivityUnknown | Activity(active: bool, bytes: Option<int>)

  predicate StartsWith(s: string, prefix: string) {
    |prefix| <= |s| && s[..|prefix|] == prefix
  }

  predicate StoppedState(state: string) {
    StartsWith(state, "paused") || StartsWith(state, "stopped")
  }

  const ACTIVE_STATES: set<string> :=
    {"downloading", "stalledDL", "queuedDL", "forcedDL", "metaDL", "forcedMetaDL", "uploading", "stalledUP",
     "queuedUP", "forcedUP"}

  const SEEDING_STATES: set<string> := {"uploading", "stalledUP", "queuedUP", "forcedUP", "pausedUP"}

  /** The stopped proof: exact place, exact owner tags, a stopped state and a credible size. */
  function ObserveStopped(torrents: Torrents, hash: string, category: string, savePath: string,
                          owners: set<string>): Observation {
    if !TorrentHash(hash) || category == "" || savePath == "" then Unknown
    else if hash !in torrents || torrents[hash].category != category then Absent
    else
      var t := torrents[hash];
      if t.savePath != savePath || t.tags != owners || t.size < 0
         || (t.amountLeft.Some? && !(0 <= t.amountLeft.value <= t.size)) || !StoppedState(t.state) then Unknown
      else if t.size == 0 then (if t.magnet then MetadataPending else Unknown)
      else Observed(t.size, t.amountLeft)
  }

  function ObserveExistingStopped(torrents: Torrents, hash: string, category: string, savePath: string): Observation {
    ObserveStopped(torrents, hash, category, savePath, {})
  }

  function ObserveTaggedStopped(torrents: Torrents, hash: string, category: string, reservationId: string,
                                savePath: string): Observation {
    if !TorrentHash(hash) || category == "" || reservationId == "" then Unknown
    else if hash !in torrents || torrents[hash].category != category
            || reservationId !in torrents[hash].tags then Absent
    else if torrents[hash].tags != {reservationId} then Unknown
    else ObserveStopped(torrents, hash, category, savePath, {reservationId})
  }

  predicate OwnedExactly(t: Torrent, category: string, savePath: string, reservationId: string) {
    t.category == category && t.savePath == savePath && t.tags == {reservationId}
  }

  function ObserveActive(torrents: Torrents, hash: string, reservationId: string, category: string,
                         savePath: string): ActivityObservation {
    if !TorrentHash(hash) || category == "" || savePath == "" then ActivityUnknown
    else if hash !in torrents then ActivityAbsent
    else
      var t := torrents[hash];
      var bytes := if t.size == 0 then None else Some(t.size);
      if !OwnedExactly(t, category, savePath, reservationId) || t.size < 0 then ActivityUnknown
      else if t.state in ACTIVE_STATES then Activity(true, bytes)
      else if StoppedState(t.state) then Activity(false, bytes)
      else ActivityUnknown
  }

  /** Only a fully downloaded, exactly owned torrent can answer as terminal. */
  function ObserveTerminal(torrents: Torrents, hash: string, reservationId: string, category: string,
                           savePath: string): ActivityObservation {
    if !TorrentHash(hash) || category == "" || savePath == "" then ActivityUnknown
    else if hash !in torrents then ActivityAbsent
    else
      var t := torrents[hash];
      if !OwnedExactly(t, category, savePath, reservationId) || !t.complete then ActivityUnknown
      else Activity(t.state in SEEDING_STATES, None)
  }

  /** What an exactly owned torrent answers about its health. */
  function HealthOf(t: Torrent): Option<Health> {
    if t.downloaded < 0 || t.availability < 0.0 || t.peers < 0 || (t.amountLeft.Some? && t.amountLeft.value < 0)
    then None
    else Some(Health(t.size > 0 && t.totalSize > 0, t.downloaded, t.availability, t.peers))
  }

  /** An answer of a stopped query that may be acted on. */
  predicate Proven(o: Observation) {
    o.Observed? || o.MetadataPending?
  }

  /** The torrent has the sizes that a stopped query reports. */
  predicate Reports(o: Observation, t: Torrent) {
    match o
    case Observed(bytes, remaining) => t.size == bytes && bytes > 0 && remaining == t.amountLeft
    case MetadataPending => t.size == 0 && t.magnet
    case _ => false
  }

  // What the rest of the world may do: only Fence writes fence tags, and nobody else
  // removes a torrent that carries one.

  predicate EnvironmentStep(before: Torrents, after: Torrents) {
    && (forall h :: h in before && before[h].tags != {} ==> h in after && after[h].tags == before[h].tags)
    && (forall h :: h in after && (h !in before || before[h].tags == {}) ==> after[h].tags == {})
  }

  function AddTag(torrents: Torrents, hash: string, tag: string): Torrents {
    if hash in torrents then torrents[hash := torrents[hash].(tags := torrents[hash].tags + {tag})] else torrents
  }

  function SetState(torrents: Torrents, hash: string, state: string): Torrents {
    if hash in torrents then torrents[hash := torrents[hash].(state := state)] else torrents
  }

  /** The torrent carries exactly this owner tag. */
  predicate Tags(torrents: Torrents, hash: Option<string>, owner: string) {
    hash.Some? && hash.value in torrents && torrents[hash.value].tags == {owner}
  }
}
