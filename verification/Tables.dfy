/** The two tables every component reads or writes, grouped by user: the presence rows
    (primary key user, area) and the entry log rows. Area ids are naturals whose order stands
    for the order in which the program sorts id strings. */
module Tables {

  datatype Option<+T> = None | Some(value: T)

  type AreaId = nat

  datatype Point = Point(lng: real, lat: real)

  /** The two time columns of a log row. */
  datatype Stamp = Stamp(recordedAt: int, capturedAt: Option<int>)

  /** One user's presence rows, and that user's log rows listed per area in commit order. */
  datatype UserRows = UserRows(presence: set<AreaId>, logs: map<AreaId, seq<Stamp>>)

  type Rows = map<string, UserRows>

  const NoRows := UserRows({}, map[])

  function RowsOf(rows: Rows, user: string): UserRows {
    if user in rows then rows[user] else NoRows
  }

  function LogOf(r: UserRows, area: AreaId): seq<Stamp> {
    if area in r.logs then r.logs[area] else []
  }

  /** One log row for each entered area, all with the same stamp. */
  function WithLogs(r: UserRows, entered: set<AreaId>, stamp: Stamp): map<AreaId, seq<Stamp>> {
    map a | a in r.logs.Keys + entered :: LogOf(r, a) + if a in entered then [stamp] else []
  }

  /** What one report means: entering is logged, leaving is not, and presence becomes current. */
  function Transition(r: UserRows, current: set<AreaId>, stamp: Stamp): UserRows {
    UserRows(current, WithLogs(r, current - r.presence, stamp))
  }

  /** What the change transaction does to the committed rows, given the presence it read:
      inserts that conflict with an existing row write nothing, and only real inserts are logged. */
  function CommitWrites(r: UserRows, previous: set<AreaId>, current: set<AreaId>, stamp: Stamp): UserRows {
    UserRows((r.presence + (current - previous)) - (previous - current),
             WithLogs(r, (current - previous) - r.presence, stamp))
  }

  /** Deleting an area row cascades to presence and to the log. */
  function DropArea(rows: Rows, area: AreaId): Rows {
    map u | u in rows :: UserRows(rows[u].presence - {area}, rows[u].logs - {area})
  }

  lemma TransitionToSamePresence(r: UserRows, stamp: Stamp)
    ensures Transition(r, r.presence, stamp) == r
  {
    assert r.presence - r.presence == {};
    forall a | a in r.logs ensures WithLogs(r, {}, stamp)[a] == r.logs[a] {
      assert r.logs[a] + [] == r.logs[a];
    }
    assert WithLogs(r, {}, stamp).Keys == r.logs.Keys;
  }

  /** The transaction carries out the transition whenever its read agrees with the table on the
      areas that still exist and every area it enters exists. */
  lemma CommitIsTransition(r: UserRows, previous: set<AreaId>, current: set<AreaId>, live: set<AreaId>, stamp: Stamp)
    requires r.presence == previous * live
    requires current - previous <= live
    ensures CommitWrites(r, previous, current, stamp) == Transition(r, current * live, stamp)
  {
  }
}
