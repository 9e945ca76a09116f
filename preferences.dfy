/** Preference matrix assembly (preferences/service.go). The three SQL
    lookups are replaced by their results: the user row, and the channel and
    event rows, each either a query error or a sequence of scanned rows. */
module Preferences {
  import opened Wrappers
  import opened Models

  datatype ChannelRow = ChannelRow(channelName: string, enabled: bool)
  datatype EventRow = EventRow(eventType: string, channelName: string, enabled: bool)

  /** One row as rows.Scan delivers it. */
  datatype Scan<T> = Scanned(row: T) | ScanFailed(message: string)

  /** The answer to the user-row lookup: an error, sql.ErrNoRows, or the opt-in flag. */
  datatype UserRow = UserQueryFailed(message: string) | NoRows | Found(globalOptIn: bool)

  datatype PreferencesError =
    | UserQueryError
    | ChannelQueryError
    | ChannelScanError
    | EventQueryError
    | EventScanError

  /** The channel map every user starts from. */
  function DefaultChannels(): map<string, bool> {
    map[ChannelEmail := true, ChannelInApp := true, ChannelPush := false, ChannelWhatsApp := false, ChannelSms := false]
  }

  function DefaultPreferences(userId: string): UserPreferences {
    UserPreferences(userId, true, DefaultChannels(), map[])
  }

  predicate AllScanned<T>(scans: seq<Scan<T>>) {
    forall i :: 0 <= i < |scans| ==> scans[i].Scanned?
  }

  function Rows<T>(scans: seq<Scan<T>>): (rows: seq<T>)
    requires AllScanned(scans)
    ensures |rows| == |scans| && forall i :: 0 <= i < |scans| ==> rows[i] == scans[i].row
  {
    seq(|scans|, i requires 0 <= i < |scans| => scans[i].row)
  }

  /** The channel rows written over `m` in row order. */
  function ApplyChannelRows(m: map<string, bool>, rows: seq<ChannelRow>): map<string, bool> {
    if rows == [] then m
    else
      var last := rows[|rows| - 1];
      ApplyChannelRows(m, rows[..|rows| - 1])[last.channelName := last.enabled]
  }

  /** The event rows written over `ev` in row order, each into the override
      map of its event type, created empty when missing. */
  function ApplyEventRows(ev: map<string, map<string, bool>>, rows: seq<EventRow>): map<string, map<string, bool>> {
    if rows == [] then ev
    else
      var last := rows[|rows| - 1];
      var prior := ApplyEventRows(ev, rows[..|rows| - 1]);
      var inner := if last.eventType in prior then prior[last.eventType] else map[];
      prior[last.eventType := inner[last.channelName := last.enabled]]
  }

  /** GetUserPreferences over the results of its three lookups. */
  function Assemble(userId: string, user: UserRow,
                    channelQuery: Result<seq<Scan<ChannelRow>>, string>,
                    eventQuery: Result<seq<Scan<EventRow>>, string>): Result<UserPreferences, PreferencesError>
  {
    match user
    case UserQueryFailed(_) => Failure(UserQueryError)
    case NoRows => Success(DefaultPreferences(userId))
    case Found(optIn) =>
      if channelQuery.Failure? then Failure(ChannelQueryError)
      else if !AllScanned(channelQuery.value) then Failure(ChannelScanError)
      else if eventQuery.Failure? then Failure(EventQueryError)
      else if !AllScanned(eventQuery.value) then Failure(EventScanError)
      else Success(UserPreferences(userId, optIn,
                                   ApplyChannelRows(DefaultChannels(), Rows(channelQuery.value)),
                                   ApplyEventRows(map[], Rows(eventQuery.value))))
  }

  lemma RowsOfPrefix<T>(scans: seq<Scan<T>>, i: nat)
    requires i < |scans| && AllScanned(scans[..i + 1])
    ensures AllScanned(scans[..i])
    ensures Rows(scans[..i + 1]) == Rows(scans[..i]) + [scans[i].row]
  {
    assert scans[..i] == scans[..i + 1][..i];
  }

  lemma EventRowStep(ev: map<string, map<string, bool>>, rows: seq<EventRow>, row: EventRow)
    ensures var prior := ApplyEventRows(ev, rows);
      var inner := if row.eventType in prior then prior[row.eventType] else map[];
      ApplyEventRows(ev, rows + [row]) == prior[row.eventType := inner[row.channelName := row.enabled]]
  {
    assert (rows + [row])[..|rows|] == rows;
  }

  /** The channel-row loop: every scanned row overwrites its channel; the
      first row that fails to scan abandons the loop. */
  method ReadChannelRows(channels: map<string, bool>, scans: seq<Scan<ChannelRow>>)
    returns (r: Option<map<string, bool>>)
    ensures r.Some? <==> AllScanned(scans)
    ensures r.Some? ==> r.value == ApplyChannelRows(channels, Rows(scans))
  {
    var m := channels;
    var i := 0;
    while i < |scans|
      invariant 0 <= i <= |scans|
      invariant AllScanned(scans[..i])
      invariant m == ApplyChannelRows(channels, Rows(scans[..i]))
    {
      if scans[i].ScanFailed? {
        return None;
      }
      var row := scans[i].row;
      m := m[row.channelName := row.enabled];
      RowsOfPrefix(scans, i);
      i := i + 1;
    }
    assert scans[..i] == scans;
    return Some(m);
  }

  /** The event-row loop: each scanned row creates its event type's override
      map if missing and overwrites one channel in it. */
  method ReadEventRows(events: map<string, map<string, bool>>, scans: seq<Scan<EventRow>>)
    returns (r: Option<map<string, map<string, bool>>>)
    ensures r.Some? <==> AllScanned(scans)
    ensures r.Some? ==> r.value == ApplyEventRows(events, Rows(scans))
  {
    var ev := events;
    var i := 0;
    while i < |scans|
      invariant 0 <= i <= |scans|
      invariant AllScanned(scans[..i])
      invariant ev == ApplyEventRows(events, Rows(scans[..i]))
    {
      if scans[i].ScanFailed? {
        return None;
      }
      var row := scans[i].row;
      RowsOfPrefix(scans, i);
      EventRowStep(events, Rows(scans[..i]), row);
      var inner := if row.eventType in ev then ev[row.eventType] else map[];
      ev := ev[row.eventType := inner[row.channelName := row.enabled]];
      i := i + 1;
    }
    assert scans[..i] == scans;
    return Some(ev);
  }

  /** SQLPreferencesService.GetUserPreferences: start from the defaults and
      overwrite them row by row; any error returns no matrix at all. */
  method GetUserPreferences(userId: string, user: UserRow,
                            channelQuery: Result<seq<Scan<ChannelRow>>, string>,
                            eventQuery: Result<seq<Scan<EventRow>>, string>)
    returns (r: Result<UserPreferences, PreferencesError>)
    ensures r == Assemble(userId, user, channelQuery, eventQuery)
  {
    var prefs := DefaultPreferences(userId);
    if user.UserQueryFailed? {
      return Failure(UserQueryError);
    } else if user.NoRows? {
      return Success(prefs);
    }
    prefs := prefs.(globalOptIn := user.globalOptIn);

    if channelQuery.Failure? {
      return Failure(ChannelQueryError);
    }
    var channels := ReadChannelRows(prefs.channels, channelQuery.value);
    if channels.None? {
      return Failure(ChannelScanError);
    }
    prefs := prefs.(channels := channels.value);

    if eventQuery.Failure? {
      return Failure(EventQueryError);
    }
    var events := ReadEventRows(prefs.eventTypes, eventQuery.value);
    if events.None? {
      return Failure(EventScanError);
    }
    prefs := prefs.(eventTypes := events.value);
    return Success(prefs);
  }

  /** MockPreferencesService.GetUserPreferences: one fixed matrix for every user. */
  function MockPreferences(userId: string): (p: UserPreferences)
    ensures p.userId == userId && p.globalOptIn
    ensures p.channels.Keys == DefaultChannels().Keys && !p.channels[ChannelSms]
    ensures p.eventTypes.Keys == {"security_alert", "message_received", "like"}
  {
    UserPreferences(userId, true,
      map[ChannelEmail := true, ChannelInApp := true, ChannelPush := true, ChannelWhatsApp := true, ChannelSms := false],
      map[
        "security_alert" := map[ChannelEmail := true, ChannelInApp := true, ChannelPush := true, ChannelWhatsApp := false, ChannelSms := false],
        "message_received" := map[ChannelEmail := false, ChannelInApp := true, ChannelPush := true, ChannelWhatsApp := true, ChannelSms := false],
        "like" := map[ChannelEmail := false, ChannelInApp := true, ChannelPush := false, ChannelWhatsApp := false, ChannelSms := false]
      ])
  }

  /** The value of the last channel row naming `c`, if any. */
  function LastChannel(rows: seq<ChannelRow>, c: string): Option<bool> {
    if rows == [] then None
    else if rows[|rows| - 1].channelName == c then Some(rows[|rows| - 1].enabled)
    else LastChannel(rows[..|rows| - 1], c)
  }

  /** LastChannel is the row with the highest index among those naming `c`. */
  lemma {:induction false} LastChannelIsLastRow(rows: seq<ChannelRow>, c: string)
    ensures LastChannel(rows, c).None? <==> forall i :: 0 <= i < |rows| ==> rows[i].channelName != c
    ensures LastChannel(rows, c).Some? ==>
      exists i :: 0 <= i < |rows| && rows[i] == ChannelRow(c, LastChannel(rows, c).value) &&
                  forall j :: i < j < |rows| ==> rows[j].channelName != c
  {
    if rows != [] {
      var init := rows[..|rows| - 1];
      LastChannelIsLastRow(init, c);
      assert forall i :: 0 <= i < |init| ==> init[i] == rows[i];
      if rows[|rows| - 1].channelName == c {
        assert rows[|rows| - 1] == ChannelRow(c, LastChannel(rows, c).value);
      } else if LastChannel(init, c).Some? {
        var i :| 0 <= i < |init| && init[i] == ChannelRow(c, LastChannel(init, c).value) &&
                 forall j :: i < j < |init| ==> init[j].channelName != c;
        assert rows[i] == ChannelRow(c, LastChannel(rows, c).value);
      }
    }
  }

  /** Channel rows: the last row naming a channel decides it; a channel no
      row names keeps its value in `m`. */
  lemma {:induction false} ChannelRowsLastWins(m: map<string, bool>, rows: seq<ChannelRow>, c: string)
    ensures c in ApplyChannelRows(m, rows) <==> c in m || LastChannel(rows, c).Some?
    ensures c in ApplyChannelRows(m, rows) ==>
      ApplyChannelRows(m, rows)[c] == if LastChannel(rows, c).Some? then LastChannel(rows, c).value else m[c]
  {
    if rows != [] {
      ChannelRowsLastWins(m, rows[..|rows| - 1], c);
    }
  }

  /** The value of the last event row naming event type `e` and channel `c`, if any. */
  function LastEvent(rows: seq<EventRow>, e: string, c: string): Option<bool> {
    if rows == [] then None
    else
      var last := rows[|rows| - 1];
      if last.eventType == e && last.channelName == c then Some(last.enabled)
      else LastEvent(rows[..|rows| - 1], e, c)
  }

  /** The override for (e, c) in an event matrix, if one is stored. */
  function OverrideOf(ev: map<string, map<string, bool>>, e: string, c: string): Option<bool> {
    if e in ev && c in ev[e] then Some(ev[e][c]) else None
  }

  /** Event rows: an event type is present once some row names it, and the
      last row naming (e, c) decides that override. */
  lemma {:induction false} EventRowsLastWins(ev: map<string, map<string, bool>>, rows: seq<EventRow>, e: string, c: string)
    ensures e in ApplyEventRows(ev, rows) <==> e in ev || exists i :: 0 <= i < |rows| && rows[i].eventType == e
    ensures OverrideOf(ApplyEventRows(ev, rows), e, c) ==
      if LastEvent(rows, e, c).Some? then LastEvent(rows, e, c) else OverrideOf(ev, e, c)
  {
    if rows != [] {
      var init := rows[..|rows| - 1];
      var last := rows[|rows| - 1];
      EventRowsLastWins(ev, init, e, c);
      assert forall i :: 0 <= i < |init| ==> init[i] == rows[i];
      if e in ev || exists i :: 0 <= i < |init| && init[i].eventType == e {
        if e !in ev {
          var i :| 0 <= i < |init| && init[i].eventType == e;
          assert rows[i].eventType == e;
        }
      } else if last.eventType == e {
        assert rows[|rows| - 1].eventType == e;
      } else {
        assert forall i :: 0 <= i < |rows| ==> rows[i].eventType != e by {
          forall i | 0 <= i < |rows| ensures rows[i].eventType != e {
            if i < |init| {
              assert init[i] == rows[i];
            }
          }
        }
      }
    }
  }

  /** A user without a row gets the defaults whatever the preference tables
      hold: opted in, e-mail and in-app enabled, no overrides. */
  lemma UnknownUserGetsDefaults(userId: string,
                                channelQuery: Result<seq<Scan<ChannelRow>>, string>,
                                eventQuery: Result<seq<Scan<EventRow>>, string>)
    ensures Assemble(userId, NoRows, channelQuery, eventQuery).Success?
    ensures var p := Assemble(userId, NoRows, channelQuery, eventQuery).value;
      p.userId == userId && p.globalOptIn &&
      EnabledIn(p.channels) == {ChannelEmail, ChannelInApp} && p.eventTypes == map[]
  {
    var p := Assemble(userId, NoRows, channelQuery, eventQuery).value;
    assert ChannelEmail in EnabledIn(p.channels) && ChannelInApp in EnabledIn(p.channels);
  }

  /** A user with a row and readable preference tables gets the row's opt-in
      flag, every default channel plus every channel a row names, each decided
      by its last row, and exactly the overrides the event rows name, each
      decided by its last row. */
  lemma AssembledMatrix(userId: string, optIn: bool, channelScans: seq<Scan<ChannelRow>>,
                        eventScans: seq<Scan<EventRow>>, e: string, c: string)
    requires AllScanned(channelScans) && AllScanned(eventScans)
    ensures Assemble(userId, Found(optIn), Success(channelScans), Success(eventScans)).Success?
    ensures var p := Assemble(userId, Found(optIn), Success(channelScans), Success(eventScans)).value;
      var lastChannel := LastChannel(Rows(channelScans), c);
      p.userId == userId && p.globalOptIn == optIn &&
      (c in p.channels <==> c in DefaultChannels() || lastChannel.Some?) &&
      (c in p.channels ==> p.channels[c] == if lastChannel.Some? then lastChannel.value else DefaultChannels()[c]) &&
      (e in p.eventTypes <==> exists i :: 0 <= i < |eventScans| && eventScans[i].row.eventType == e) &&
      OverrideOf(p.eventTypes, e, c) == LastEvent(Rows(eventScans), e, c)
  {
    ChannelRowsLastWins(DefaultChannels(), Rows(channelScans), c);
    EventRowsLastWins(map[], Rows(eventScans), e, c);
  }

  /** Once the user row is found, a failed query or a row that fails to scan
      yields an error rather than a matrix. (A row iteration that breaks off
      is not such a failure; see IterationErrorIsSilent.) */
  lemma FailureMeansNoMatrix(userId: string, optIn: bool,
                             channelQuery: Result<seq<Scan<ChannelRow>>, string>,
                             eventQuery: Result<seq<Scan<EventRow>>, string>)
    ensures Assemble(userId, Found(optIn), channelQuery, eventQuery).Success? <==>
      channelQuery.Success? && AllScanned(channelQuery.value) &&
      eventQuery.Success? && AllScanned(eventQuery.value)
  {
  }

  /** As written, the row loops end when `rows.Next()` returns false and never
      consult `rows.Err()`, so an iteration that breaks off after the first
      `k` channel rows and `j` event rows is indistinguishable from tables
      holding only those rows: the call succeeds with the matrix built from
      the rows read so far. */
  lemma IterationErrorIsSilent(userId: string, optIn: bool,
                               channelScans: seq<Scan<ChannelRow>>, eventScans: seq<Scan<EventRow>>,
                               k: nat, j: nat)
    requires AllScanned(channelScans) && AllScanned(eventScans)
    requires k <= |channelScans| && j <= |eventScans|
    ensures var r := Assemble(userId, Found(optIn), Success(channelScans[..k]), Success(eventScans[..j]));
      r.Success? &&
      r.value.channels == ApplyChannelRows(DefaultChannels(), Rows(channelScans)[..k]) &&
      r.value.eventTypes == ApplyEventRows(map[], Rows(eventScans)[..j])
  {
    assert AllScanned(channelScans[..k]);
    assert AllScanned(eventScans[..j]);
    assert Rows(channelScans[..k]) == Rows(channelScans)[..k];
    assert Rows(eventScans[..j]) == Rows(eventScans)[..j];
  }
}
