/**
 The remote half of the amp source: threads behind a search command that silently
 stops at 100 rows, and a clock shared with this machine.
 */
module AmpServer {
  import opened Clock
  import opened Wrappers

  /** 1 January 2025, the first day of an initial enumeration. */
  const HISTORY_FLOOR: Time := 739_251 * DAY
  /** The row count at which a page may have been truncated. */
  const PAGE_CAP := 100
  const LIST_CAP := 500

  datatype Thread = Thread(updatedAt: Time, archived: bool, pinned: bool)
  type Universe = map<string, Thread>

  /** The boolean facets a capped day is split on; None leaves a facet unasked. */
  datatype Facets = Facets(archived: Option<bool>, pinned: Option<bool>)
  const ANY_FACETS := Facets(None, None)

  datatype Query =
    | Windowed(after: Time, before: Time, facets: Facets)
    | ById(id: string)

  predicate Matches(q: Query, id: string, th: Thread) {
    match q
    case Windowed(after, before, p) =>
      && after <= th.updatedAt < before
      && (p.archived.Some? ==> th.archived == p.archived.value)
      && (p.pinned.Some? ==> th.pinned == p.pinned.value)
    case ById(wanted) => id == wanted
  }

  /** One search row; a row may lack its id or carry a stamp that does not parse. */
  datatype Row = Row(id: string, updatedAt: Option<Time>)

  predicate Readable(row: Row) {
    row.id != "" && row.updatedAt.Some?
  }

  datatype Failure = Spawn | Cancelled | Other
  datatype Reply = Page(rows: seq<Row>) | Failed(why: Failure)

  datatype ListRow = ListRow(id: string, updated: Option<Time>)
  datatype Listing = Listed(rows: seq<ListRow>) | Unlisted(why: Failure)

  /** What the remote answers: `search(k, q)` is the reply were call number k the query q. */
  datatype Server = Server(search: (nat, Query) -> Reply, list: nat -> Listing)

  /** Some row stands for thread id: exactly, with an unreadable stamp, or with its id missing. */
  ghost predicate Shown(rows: seq<Row>, id: string, th: Thread) {
    exists i :: 0 <= i < |rows| &&
                (rows[i] == Row(id, Some(th.updatedAt)) || rows[i] == Row(id, None) || rows[i].id == "")
  }

  /** A page below the cap shows every matching thread; a readable row never lies. */
  ghost predicate Answers(world: Universe, q: Query, rows: seq<Row>) {
    && (|rows| < PAGE_CAP ==>
          forall id :: id in world && Matches(q, id, world[id]) ==> Shown(rows, id, world[id]))
    && (forall i :: 0 <= i < |rows| && Readable(rows[i]) ==>
          && rows[i].id in world
          && Matches(q, rows[i].id, world[rows[i].id])
          && world[rows[i].id].updatedAt == rows[i].updatedAt.value)
  }

  /** The server answers call k from the universe as it stands at call k; between calls anything may change. */
  ghost predicate Honest(srv: Server, worlds: seq<Universe>) {
    forall k: nat, q :: k < |worlds| && srv.search(k, q).Page? ==> Answers(worlds[k], q, srv.search(k, q).rows)
  }

  /** Thread id stands unchanged at every call numbered from lo below hi. */
  ghost predicate Steady(worlds: seq<Universe>, lo: nat, hi: nat, id: string, th: Thread) {
    && hi <= |worlds|
    && forall k :: lo <= k < hi ==> id in worlds[k] && worlds[k][id] == th
  }
}
