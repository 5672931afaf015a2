/** The rows of the monitor events: one per dedupe key, opened, resolved and marked by a log of operations. */
module Monitor {
  import opened Prelude

  datatype MonitorStatus = Open | Acknowledged | Suppressed | Resolved

  datatype Content = Content(monitorType: string, component: string, severity: string, title: string, message: string)

  datatype MonitorEvent = MonitorEvent(
    id: nat, created: int, updated: int, content: Content, status: MonitorStatus,
    releaseId: Option<string>, marketTicker: Option<string>, details: string,
    firstSeen: int, lastSeen: int, occurrences: nat, alertSent: Option<int>, resolvedAt: Option<int>)

  /** One call; an upsert carries the uuid that it would insert. */
  datatype Operation =
    | UpsertOpen(
        key: string, at: int, id: nat, content: Content, releaseId: Option<string>,
        marketTicker: Option<string>, details: string)
    | UpsertResolved(key: string, at: int, id: nat, content: Content, details: string)
    | Resolve(key: string, at: int, newDetails: Option<string>)
    | MarkSent(key: string, at: int)

  predicate IsUpsert(op: Operation) {
    op.UpsertOpen? || op.UpsertResolved?
  }

  type Rows = map<string, MonitorEvent>

  function Inserted(op: Operation): MonitorEvent
    requires IsUpsert(op)
  {
    match op
    case UpsertOpen(_, at, id, content, releaseId, marketTicker, details) =>
      MonitorEvent(id, at, at, content, Open, releaseId, marketTicker, details, at, at, 1, None, None)
    case UpsertResolved(_, at, id, content, details) =>
      MonitorEvent(id, at, at, content, Resolved, None, None, details, at, at, 1, None, Some(at))
  }

  function Updated(row: MonitorEvent, op: Operation): MonitorEvent {
    match op
    case UpsertOpen(_, at, _, content, releaseId, marketTicker, details) =>
      row.(updated := at, content := content, status := Open, releaseId := releaseId, marketTicker := marketTicker,
           details := details, lastSeen := at, occurrences := row.occurrences + 1, resolvedAt := None)
    case UpsertResolved(_, at, _, content, details) =>
      row.(updated := at, content := content, status := Resolved, details := details, lastSeen := at,
        resolvedAt := Some(at))
    case Resolve(_, at, newDetails) =>
      row.(status := Resolved, updated := at, lastSeen := at, resolvedAt := Some(at),
           details := if newDetails.Some? then newDetails.value else row.details)
    case MarkSent(_, at) =>
      row.(alertSent := Some(at), updated := at)
  }

  function Applied(rows: Rows, op: Operation): Rows {
    if op.key in rows then rows[op.key := Updated(rows[op.key], op)]
    else if IsUpsert(op) then rows[op.key := Inserted(op)]
    else rows
  }

  /** The rows after a log of operations on an empty table. */
  function RowsAfter(log: seq<Operation>): Rows {
    if log == [] then map[] else Applied(RowsAfter(log[..|log| - 1]), log[|log| - 1])
  }

  /******* The table as the program runs it *******/

  class MonitorEventRepository {
    var rows: Rows

    constructor ()
      ensures rows == RowsAfter([])
    {
      rows := map[];
    }

    method UpsertOpenEvent(key: string, at: int, id: nat, content: Content, releaseId: Option<string>,
                           marketTicker: Option<string>, details: string) returns (event: MonitorEvent)
      modifies this
      ensures rows == Applied(old(rows), UpsertOpen(key, at, id, content, releaseId, marketTicker, details))
      ensures key in rows && event == rows[key]
    {
      if key in rows {
        var row := rows[key];
        rows := rows[key := row.(updated := at, content := content, status := Open, releaseId := releaseId,
          marketTicker := marketTicker, details := details, lastSeen := at, occurrences :=
            row.occurrences + 1, resolvedAt := None)];
      } else {
        rows := rows[key := MonitorEvent(id, at, at, content, Open, releaseId, marketTicker, details, at, at, 1, None,
          None)];
      }
      return rows[key];
    }

    method UpsertResolvedEvent(key: string, at: int, id: nat, content: Content,
                               details: string) returns (event: MonitorEvent)
      modifies this
      ensures rows == Applied(old(rows), UpsertResolved(key, at, id, content, details))
      ensures key in rows && event == rows[key]
    {
      if key in rows {
        rows := rows[key := rows[key].(updated := at, content := content, status := Resolved, details := details,
          lastSeen := at, resolvedAt := Some(at))];
      } else {
        rows := rows[key := MonitorEvent(id, at, at, content, Resolved, None, None, details, at, at, 1, None,
          Some(at))];
      }
      return rows[key];
    }

    method ResolveEvent(key: string, at: int, newDetails: Option<string>) returns (event: Option<MonitorEvent>)
      modifies this
      ensures rows == Applied(old(rows), Resolve(key, at, newDetails))
      ensures event == if key in rows then Some(rows[key]) else None
    {
      if key !in rows {
        return None;
      }
      var row := rows[key].(status := Resolved, updated := at, lastSeen := at, resolvedAt := Some(at));
      if newDetails.Some? {
        row := row.(details := newDetails.value);
      }
      rows := rows[key := row];
      return Some(row);
    }

    method MarkAlertSent(key: string, at: int)
      modifies this
      ensures rows == Applied(old(rows), MarkSent(key, at))
    {
      if key !in rows {
        return;
      }
      rows := rows[key := rows[key].(alertSent := Some(at), updated := at)];
    }
  }

  /******* Laws of whole logs *******/

  function ForKey(log: seq<Operation>, key: string): seq<Operation> {
    if log == [] then []
    else
      var rest := ForKey(log[..|log| - 1], key);
      if log[|log| - 1].key == key then rest + [log[|log| - 1]] else rest
  }

  /** A row depends on the operations for its own key and on nothing else. */
  lemma {:induction false} RowsIndependent(log: seq<Operation>, key: string)
    ensures key in RowsAfter(log) <==> key in RowsAfter(ForKey(log, key))
    ensures key in RowsAfter(log) ==> RowsAfter(log)[key] == RowsAfter(ForKey(log, key))[key]
  {
    if log != [] {
      var rest := ForKey(log[..|log| - 1], key);
      var last := log[|log| - 1];
      RowsIndependent(log[..|log| - 1], key);
      assert (rest + [last])[..|rest|] == rest;
    }
  }

  predicate ClockMonotone(log: seq<Operation>) {
    forall i, j :: 0 <= i < j < |log| ==> log[i].at <= log[j].at
  }

  /** The first upsert for the key, or the length of the log. */
  function Creation(log: seq<Operation>, key: string): (c: nat)
    ensures c <= |log|
    ensures c < |log| ==> log[c].key == key && IsUpsert(log[c])
    ensures forall j :: 0 <= j < c ==> !(log[j].key == key && IsUpsert(log[j]))
  {
    if log == [] then 0
    else
      var c := Creation(log[..|log| - 1], key);
      if c < |log| - 1 || (log[|log| - 1].key == key && IsUpsert(log[|log| - 1])) then c else |log|
  }

  /** The number of open upserts for the key after position `c`. */
  function OpensAfter(log: seq<Operation>, key: string, c: nat): nat {
    if |log| <= c + 1 then 0
    else
      var rest := OpensAfter(log[..|log| - 1], key, c);
      rest + if log[|log| - 1].key == key && log[|log| - 1].UpsertOpen? then 1 else 0
  }

  /** The last operation for the key that counts as a sighting, from its creation on. */
  function LastSighting(log: seq<Operation>, key: string): (l: nat)
    requires Creation(log, key) < |log|
    ensures Creation(log, key) <= l < |log| && log[l].key == key && !log[l].MarkSent?
    ensures forall j :: l < j < |log| ==> log[j].key != key || log[j].MarkSent?
  {
    var n := |log| - 1;
    if log[n].key == key && !log[n].MarkSent? then n else LastSighting(log[..n], key)
  }

  datatype Kind = Upserts | OpenUpserts | DetailChanges | Alerts

  predicate IsKind(op: Operation, kind: Kind) {
    match kind
    case Upserts => IsUpsert(op)
    case OpenUpserts => op.UpsertOpen?
    case DetailChanges => IsUpsert(op) || (op.Resolve? && op.newDetails.Some?)
    case Alerts => op.MarkSent?
  }

  /** The last operation of the kind for the key from position `c` on, if there is one. */
  function Latest(log: seq<Operation>, key: string, c: nat, kind: Kind): (latest: Option<Operation>)
    ensures latest.Some? ==> latest.value in log && latest.value.key == key && IsKind(latest.value, kind)
    ensures latest.None? <==> forall j :: c <= j < |log| ==> !(log[j].key == key && IsKind(log[j], kind))
  {
    if |log| <= c then None
    else if log[|log| - 1].key == key && IsKind(log[|log| - 1], kind) then Some(log[|log| - 1])
    else Latest(log[..|log| - 1], key, c, kind)
  }

  function DetailsOf(op: Operation): string
    requires IsKind(op, DetailChanges)
  {
    if IsUpsert(op) then op.details else op.newDetails.value
  }

  /** Each column that is overwritten holds what the last operation that writes it, since the creation, wrote. */
  predicate TellsColumns(row: MonitorEvent, log: seq<Operation>, key: string) {
    var c := Creation(log, key);
    var upsert := Latest(log, key, c, Upserts);
    var open := Latest(log, key, c, OpenUpserts);
    var details := Latest(log, key, c, DetailChanges);
    var alert := Latest(log, key, c, Alerts);
    && upsert.Some? && row.content == upsert.value.content
    && row.releaseId == (if open.Some? then open.value.releaseId else None)
    && row.marketTicker == (if open.Some? then open.value.marketTicker else None)
    && details.Some? && row.details == DetailsOf(details.value)
    && row.alertSent == (if alert.Some? then Some(alert.value.at) else None)
  }

  /** What a row says about the operations for its key. */
  predicate Tells(row: MonitorEvent, log: seq<Operation>, key: string)
    requires Creation(log, key) < |log|
  {
    var c := Creation(log, key);
    && row.id == log[c].id && row.created == row.firstSeen == log[c].at
    && row.occurrences == 1 + OpensAfter(log, key, c)
    && row.lastSeen == log[LastSighting(log, key)].at
    && (row.status == Open <==> log[LastSighting(log, key)].UpsertOpen?)
    && (row.status == Resolved <==> row.resolvedAt.Some?)
    && row.status in {Open, Resolved}
    && (row.resolvedAt.Some? ==> row.resolvedAt.value == row.lastSeen)
  }

  /** A row exists from the first upsert on; id and first sighting are that upsert's, and the rest follows
      the later sightings. */
  lemma {:induction false} RowsTell(log: seq<Operation>, key: string)
    ensures key in RowsAfter(log) <==> Creation(log, key) < |log|
    ensures key in RowsAfter(log) ==> Tells(RowsAfter(log)[key], log, key)
  {
    if log != [] {
      RowsTell(log[..|log| - 1], key);
    }
  }

  lemma ColumnsFollow(row: MonitorEvent, log: seq<Operation>, key: string)
    requires log != [] && Creation(log[..|log| - 1], key) < |log| - 1 && TellsColumns(row, log[..|log| - 1], key)
    ensures TellsColumns(if log[|log| - 1].key == key then Updated(row, log[|log| - 1]) else row, log, key)
  {
  }

  lemma ColumnsBegin(log: seq<Operation>, key: string)
    requires log != [] && log[|log| - 1].key == key && IsUpsert(log[|log| - 1]) && Creation(log, key) == |log| - 1
    ensures TellsColumns(Inserted(log[|log| - 1]), log, key)
  {
  }

  /** Content, release, market, details and alert of a row are those of the last operations that write them. */
  lemma {:induction false} RowsTellColumns(log: seq<Operation>, key: string)
    requires key in RowsAfter(log)
    ensures TellsColumns(RowsAfter(log)[key], log, key)
  {
    hide TellsColumns, Updated, Inserted;
    var before := log[..|log| - 1];
    RowsTell(before, key);
    RowsTell(log, key);
    if key in RowsAfter(before) {
      RowsTellColumns(before, key);
      ColumnsFollow(RowsAfter(before)[key], log, key);
    } else {
      ColumnsBegin(log, key);
    }
  }

  /** Under a clock that never runs backwards, a row is first seen, then last seen, then updated. */
  lemma {:induction false} TimesInOrder(log: seq<Operation>, key: string)
    requires ClockMonotone(log) && key in RowsAfter(log)
    ensures var row := RowsAfter(log)[key];
      && row.firstSeen <= row.lastSeen <= row.updated
      && row.updated <= log[|log| - 1].at
      && (row.alertSent.Some? ==> row.firstSeen <= row.alertSent.value <= row.updated)
  {
    var before := log[..|log| - 1];
    if key in RowsAfter(before) {
      TimesInOrder(before, key);
    }
  }

  /** Identity and first sighting survive every continuation of the log, and occurrences never fall. */
  lemma {:induction false} IdentityStays(log: seq<Operation>, more: seq<Operation>, key: string)
    requires key in RowsAfter(log)
    ensures key in RowsAfter(log + more)
    ensures var row := RowsAfter(log)[key]; var later := RowsAfter(log + more)[key];
      later.id == row.id && later.created == row.created && later.firstSeen == row.firstSeen
        && row.occurrences <= later.occurrences
    decreases |more|
  {
    if more == [] {
      assert log + more == log;
    } else {
      var n := |more| - 1;
      IdentityStays(log, more[..n], key);
      assert (log + more)[..|log| + n] == log + more[..n];
    }
  }
}
