/** The reservation container (frontend/src/context/ReservationContext.jsx):
    the active reservation, the reservation history (newest first, one entry
    per id), their two local-storage slots 'currentReservation' and
    'reservationHistory', and the countdown to a reservation. */
module Reservations {
  import opened Common
  import opened Seqs

  /** A reservation record as the reservation service returns it. */
  datatype Reservation = Reservation(
    id: int, date: string, time: string, tableId: int, tableLabel: string, capacity: int, status: string)

  /** The two in-memory cells. */
  datatype ReservationState = ReservationState(current: Option<Reservation>, history: seq<Reservation>)

  const Initial: ReservationState := ReservationState(None, [])

  predicate InHistory(history: seq<Reservation>, id: int) {
    exists i :: 0 <= i < |history| && history[i].id == id
  }

  predicate UniqueIds(history: seq<Reservation>) {
    forall i, j :: 0 <= i < j < |history| ==> history[i].id != history[j].id
  }

  /** The in-memory history after saveReservation: `r` goes to the front
      unless an entry with its id is already there. */
  function HistoryAfterSave(history: seq<Reservation>, r: Reservation): (h: seq<Reservation>)
    ensures InHistory(history, r.id) ==> h == history
    ensures !InHistory(history, r.id) ==> h == [r] + history
  {
    match IndexWhere(history, (x: Reservation) => x.id == r.id)
    case Some(_) => history
    case None => [r] + history
  }

  /** What the source writes to the history slot: `[reservationData,
      ...reservationHistory]`, whether or not the id was already there. */
  function PersistedHistoryAsWritten(history: seq<Reservation>, r: Reservation): seq<Reservation> {
    [r] + history
  }

  /** The deduplicated history slot: the same list as the in-memory
      history. */
  function PersistedHistory(history: seq<Reservation>, r: Reservation): seq<Reservation> {
    HistoryAfterSave(history, r)
  }

  /** The hydration: a parsed current slot replaces the current reservation;
      then a parsed history slot replaces the history. Both reads sit in one
      `try`, so a current slot that fails to parse also skips the history. */
  function Hydrate(st: ReservationState, currentSlot: Slot<Reservation>, historySlot: Slot<seq<Reservation>>): (r: ReservationState)
    ensures currentSlot.Stored? ==> r.current == Some(currentSlot.value)
    ensures !currentSlot.Stored? ==> r.current == st.current
    ensures currentSlot.Corrupt? ==> r.history == st.history
    ensures !currentSlot.Corrupt? && historySlot.Stored? ==> r.history == historySlot.value
    ensures !historySlot.Stored? ==> r.history == st.history
  {
    if currentSlot.Corrupt? then st
    else
      var current := if currentSlot.Stored? then Some(currentSlot.value) else st.current;
      var history := if historySlot.Stored? then historySlot.value else st.history;
      ReservationState(current, history)
  }

  // ------------------------------------------------------------ lemmas

  /** Saving the same id any number of times leaves one history entry for
      it, and a history without duplicates keeps none. */
  lemma SaveKeepsUnique(history: seq<Reservation>, r: Reservation)
    requires UniqueIds(history)
    ensures UniqueIds(HistoryAfterSave(history, r))
    ensures InHistory(HistoryAfterSave(history, r), r.id)
  {
    var h := HistoryAfterSave(history, r);
    if !InHistory(history, r.id) {
      forall i, j | 0 <= i < j < |h| ensures h[i].id != h[j].id {
        assert h[j] == history[j - 1];
        if i > 0 {
          assert h[i] == history[i - 1];
        }
      }
      assert h[0] == r;
    }
  }

  /** After a save the history holds the saved id. */
  lemma SaveKeepsPresent(history: seq<Reservation>, r: Reservation)
    ensures InHistory(HistoryAfterSave(history, r), r.id)
  {
    if !InHistory(history, r.id) {
      assert HistoryAfterSave(history, r)[0] == r;
    }
  }

  /** Saving a reservation twice gives the same history as saving it once. */
  lemma SaveTwice(history: seq<Reservation>, r: Reservation, r2: Reservation)
    requires r2.id == r.id
    ensures HistoryAfterSave(HistoryAfterSave(history, r), r2) == HistoryAfterSave(history, r)
  {
    var h := HistoryAfterSave(history, r);
    if !InHistory(history, r.id) {
      assert h[0].id == r2.id;
    }
  }

  /** Hydrating twice from the same slots is hydrating once. */
  lemma HydrateIdempotent(st: ReservationState, c: Slot<Reservation>, h: Slot<seq<Reservation>>)
    ensures Hydrate(Hydrate(st, c, h), c, h) == Hydrate(st, c, h)
  {
  }

  /** After a save the two slots hydrate back to the state the save left in
      memory, whatever state the hydration starts from. */
  lemma SaveThenHydrate(st: ReservationState, history: seq<Reservation>, r: Reservation)
    ensures Hydrate(st, Stored(r), Stored(PersistedHistory(history, r)))
      == ReservationState(Some(r), HistoryAfterSave(history, r))
  {
  }

  /** As written, re-saving a reservation whose id is already in the
      history leaves the in-memory history as it was but writes a slot with
      a second entry for that id, so the next hydration shows the
      reservation twice. */
  lemma ResaveDuplicatesAsWritten(st: ReservationState, history: seq<Reservation>, r: Reservation)
    requires InHistory(history, r.id)
    ensures HistoryAfterSave(history, r) == history
    ensures PersistedHistoryAsWritten(history, r) != HistoryAfterSave(history, r)
    ensures !UniqueIds(Hydrate(st, Stored(r), Stored(PersistedHistoryAsWritten(history, r))).history)
  {
    var k :| 0 <= k < |history| && history[k].id == r.id;
    var h := Hydrate(st, Stored(r), Stored(PersistedHistoryAsWritten(history, r))).history;
    assert h == [r] + history;
    assert h[0].id == h[k + 1].id;
  }

  /** The intended history slot equals the in-memory history, and keeps
      the ids unique whenever the in-memory history does. */
  lemma PersistedHistoryAgrees(history: seq<Reservation>, r: Reservation)
    requires UniqueIds(history)
    ensures PersistedHistory(history, r) == HistoryAfterSave(history, r)
    ensures UniqueIds(PersistedHistory(history, r))
    ensures !InHistory(history, r.id) ==> PersistedHistory(history, r) == PersistedHistoryAsWritten(history, r)
  {
    SaveKeepsUnique(history, r);
  }

  // ------------------------------------------------------------ countdown

  const MsPerSecond: int := 1000
  const MsPerMinute: int := 60 * 1000
  const MsPerHour: int := 60 * 60 * 1000
  const MsPerDay: int := 24 * 60 * 60 * 1000

  datatype Countdown = Countdown(days: int, hours: int, minutes: int, seconds: int, total: int)

  /** The instant the fields add up to. */
  function Elapsed(c: Countdown): int {
    c.days * MsPerDay + c.hours * MsPerHour + c.minutes * MsPerMinute + c.seconds * MsPerSecond
  }

  /** getTimeUntilReservation. `instant` is `new Date(date + 'T' + time)` in
      milliseconds (None when the text is not a date, which makes the
      difference NaN) and `now` the clock. On a positive difference
      `floor(x % n)` of a positive quotient equals the integer quotient
      taken modulo `n`. */
  function TimeUntilReservation(r: Option<Reservation>, instant: Option<int>, now: int): (c: Option<Countdown>)
    ensures r.None? <==> c.None?
    ensures c.Some? && instant.Some? && instant.value - now > 0 ==>
      var d := instant.value - now;
      c.value.total == d && c.value.days >= 0
      && 0 <= c.value.hours < 24 && 0 <= c.value.minutes < 60 && 0 <= c.value.seconds < 60
      && Elapsed(c.value) <= d < Elapsed(c.value) + MsPerSecond
    ensures c.Some? && !(instant.Some? && instant.value - now > 0) ==> c.value == Countdown(0, 0, 0, 0, 0)
  {
    if r.None? then None
    else if instant.Some? && instant.value - now > 0 then
      var d := instant.value - now;
      var c := Countdown(d / MsPerDay, (d / MsPerHour) % 24, (d / MsPerMinute) % 60, (d / MsPerSecond) % 60, d);
      CountdownSums(d);
      Some(c)
    else Some(Countdown(0, 0, 0, 0, 0))
  }

  /** The four fields decompose the difference, down to whole seconds. */
  lemma CountdownSums(d: nat)
    ensures var c := Countdown(d / MsPerDay, (d / MsPerHour) % 24, (d / MsPerMinute) % 60, (d / MsPerSecond) % 60, d);
      Elapsed(c) <= d < Elapsed(c) + MsPerSecond
  {
    var s := d / 1000;
    var m := s / 60;
    var h := m / 60;
    assert d / MsPerMinute == m;
    assert d / MsPerHour == h;
    assert d / MsPerDay == h / 24;
    assert d == s * 1000 + d % 1000;
    assert s == m * 60 + s % 60;
    assert m == h * 60 + m % 60;
    assert h == (h / 24) * 24 + h % 24;
  }

  /** Euclidean division undoes `q * n + rem` for a remainder below `n`. */
  lemma DivModOf(q: int, rem: int, n: int)
    requires 0 < n && 0 <= rem < n
    ensures (q * n + rem) / n == q && (q * n + rem) % n == rem
  {
    var a := q * n + rem;
    var k := a / n - q;
    assert k * n == rem - a % n;
    assert k == 0;
  }

  /** A split into days, hours, minutes, seconds and milliseconds is the one
      the countdown's divisions find. */
  lemma SplitOf(days: nat, hours: nat, minutes: nat, seconds: nat, ms: nat)
    requires hours < 24 && minutes < 60 && seconds < 60 && ms < MsPerSecond
    ensures var d := days * MsPerDay + hours * MsPerHour + minutes * MsPerMinute + seconds * MsPerSecond + ms;
      d / MsPerDay == days && (d / MsPerHour) % 24 == hours
      && (d / MsPerMinute) % 60 == minutes && (d / MsPerSecond) % 60 == seconds
  {
    var d := days * MsPerDay + hours * MsPerHour + minutes * MsPerMinute + seconds * MsPerSecond + ms;
    var h := days * 24 + hours;
    var m := h * 60 + minutes;
    var s := m * 60 + seconds;
    assert d == s * MsPerSecond + ms;
    assert d == m * MsPerMinute + (seconds * MsPerSecond + ms);
    assert d == h * MsPerHour + (minutes * MsPerMinute + seconds * MsPerSecond + ms);
    assert d == days * MsPerDay + (hours * MsPerHour + minutes * MsPerMinute + seconds * MsPerSecond + ms);
    DivModOf(s, ms, MsPerSecond);
    DivModOf(m, seconds * MsPerSecond + ms, MsPerMinute);
    DivModOf(h, minutes * MsPerMinute + seconds * MsPerSecond + ms, MsPerHour);
    DivModOf(days, hours * MsPerHour + minutes * MsPerMinute + seconds * MsPerSecond + ms, MsPerDay);
    DivModOf(m, seconds, 60);
    DivModOf(h, minutes, 60);
    DivModOf(days, hours, 24);
  }

  /** The countdown reads back any split into days, hours, minutes,
      seconds and leftover milliseconds: one hour ahead shows 0d 1h 0m 0s,
      and so on. */
  lemma CountdownOf(r: Reservation, now: int, days: nat, hours: nat, minutes: nat, seconds: nat, ms: nat)
    requires hours < 24 && minutes < 60 && seconds < 60 && ms < MsPerSecond
    requires days * MsPerDay + hours * MsPerHour + minutes * MsPerMinute + seconds * MsPerSecond + ms > 0
    ensures var d := days * MsPerDay + hours * MsPerHour + minutes * MsPerMinute + seconds * MsPerSecond + ms;
      TimeUntilReservation(Some(r), Some(now + d), now) == Some(Countdown(days, hours, minutes, seconds, d))
  {
    SplitOf(days, hours, minutes, seconds, ms);
  }

  /** isUpcomingReservation: true for every reservation that exists, that
      is, exactly when a countdown is shown, whatever the instant and the
      clock. */
  predicate IsUpcomingReservation(r: Option<Reservation>)
    ensures IsUpcomingReservation(r) <==> forall instant, now :: TimeUntilReservation(r, instant, now).Some?
  {
    assert TimeUntilReservation(r, None, 0).Some? ==> r.Some?;
    r.Some?
  }

  /** A reservation whose time has passed (all-zero countdown) is still
      classified as upcoming. */
  lemma PassedStillUpcoming(r: Reservation, instant: int, now: int)
    requires instant <= now
    ensures TimeUntilReservation(Some(r), Some(instant), now) == Some(Countdown(0, 0, 0, 0, 0))
    ensures IsUpcomingReservation(Some(r))
  {
  }

  // ------------------------------------------------------------ the container

  class ReservationStore {
    var currentReservation: Option<Reservation>
    var reservationHistory: seq<Reservation>
    var currentSlot: Slot<Reservation>
    var historySlot: Slot<seq<Reservation>>

    function State(): ReservationState
      reads this
    {
      ReservationState(currentReservation, reservationHistory)
    }

    /** Mount: empty state, then loadReservationFromStorage on the stored
        slots. */
    constructor Mount(storedCurrent: Slot<Reservation>, storedHistory: Slot<seq<Reservation>>)
      ensures currentSlot == storedCurrent && historySlot == storedHistory
      ensures State() == Hydrate(Initial, storedCurrent, storedHistory)
    {
      currentReservation := None;
      reservationHistory := [];
      currentSlot := storedCurrent;
      historySlot := storedHistory;
      new;
      LoadReservationFromStorage();
    }

    /** saveReservation: the in-memory history gains `r` only for a new
        id, while the history slot always gets `r` in front of the old
        history. */
    method SaveReservation(r: Reservation)
      modifies this
      ensures State() == ReservationState(Some(r), HistoryAfterSave(old(reservationHistory), r))
      ensures currentSlot == Stored(r)
      ensures historySlot == Stored(PersistedHistoryAsWritten(old(reservationHistory), r))
    {
      currentReservation := Some(r);
      var existing := IndexWhere(reservationHistory, (x: Reservation) => x.id == r.id);
      var persisted := PersistedHistoryAsWritten(reservationHistory, r);
      if existing.None? {
        reservationHistory := [r] + reservationHistory;
      }
      currentSlot := Stored(r);
      historySlot := Stored(persisted);
    }

    /** clearReservation: the history and its slot are kept. */
    method ClearReservation()
      modifies this
      ensures State() == ReservationState(None, old(reservationHistory))
      ensures currentSlot == Empty && historySlot == old(historySlot)
    {
      currentReservation := None;
      currentSlot := Empty;
    }

    method LoadReservationFromStorage()
      modifies this
      ensures State() == Hydrate(old(State()), currentSlot, historySlot)
      ensures currentSlot == old(currentSlot) && historySlot == old(historySlot)
    {
      if currentSlot.Corrupt? {
        return;
      }
      if currentSlot.Stored? {
        currentReservation := Some(currentSlot.value);
      }
      if historySlot.Stored? {
        reservationHistory := historySlot.value;
      }
    }
  }

  /** Saving the same reservation twice and reloading, as a revisit of the
      confirmation does: the reloaded history holds the reservation twice. */
  method SaveTwiceThenReload(store: ReservationStore, r: Reservation)
    modifies store
    ensures store.reservationHistory == [r] + HistoryAfterSave(old(store.reservationHistory), r)
    ensures !UniqueIds(store.reservationHistory)
  {
    ghost var h0 := store.reservationHistory;
    store.SaveReservation(r);
    SaveKeepsPresent(h0, r);
    store.SaveReservation(r);
    store.LoadReservationFromStorage();
    ResaveDuplicatesAsWritten(ReservationState(Some(r), HistoryAfterSave(h0, r)), HistoryAfterSave(h0, r), r);
  }
}
