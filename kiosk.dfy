/**
  The kiosk game page: wristband admission of up to five players, the reaction
  to the game-status poll, the Start button's gate and label, the high-score
  defaults, the default variant, and the precondition of the start action.

  Network calls are not modelled: what a call would return is a parameter
  (`Option<...>`, `None` when the call failed).
 */
module Kiosk {
  import opened Js
  import opened Options

  /** The most players one session admits. */
  const MaxPlayers: nat := 5

  /** The key under which a player row records its wristband transaction id. */
  const IdKey: string := "wristbandTranID"

  /** The status value the game server reports while a game is being played. */
  const Running: Value := Str("Running")

  const WaitLabel: string := "PLEASE WAIT UNTIL THE GAME ENDS"
  const StartLabel: string := "START"

  /** The id the WPF host passes for a tapped wristband. */
  type WristbandId = string

  /** A JSON object: the player summary returned by the lookup, or a stored player row. */
  type Row = map<string, Value>

  datatype Variant = Variant(id: Value, name: string, instructions: string)

  /** One entry of the game lookup response. */
  datatype GameRecord = GameRecord(ipAddress: Value, localPort: Value, variants: seq<Variant>)

  /** The body of the highest-scores response; an absent field is `Undefined`. */
  datatype ScoresResponse = ScoresResponse(highestToday: Value, highest90Days: Value, highestAllTime: Value)

  /** The three scores the page shows. */
  datatype HighScores = HighScores(today: Value, last90Days: Value, last360Days: Value)

  /** What the guard of a scan decides from the list it sees. */
  datatype Admission = AlreadyTapped | PlayerLimit | Admitted

  /** What became of one scan. */
  datatype ScanOutcome = Rejected(reason: Admission) | LookupFailed | Added

  /** One wristband scan together with what its player lookup returned. */
  datatype Scan = Scan(id: WristbandId, lookup: Option<Row>)

  /** What pressing Start does: send the start request with these arguments, or log that information is missing. */
  datatype StartOutcome =
    | StartRequest(gameCode: Value, variantCode: string, ip: Value, port: Value)
    | MissingInformation

  // ---------------------------------------------------------------------------
  // Player rows and the admission guard

  /** `row.wristbandTranID`: the recorded id, `undefined` when the row has none. */
  function IdOf(row: Row): Value
  {
    if IdKey in row then row[IdKey] else Undefined
  }

  /** `{...data, wristbandTranID}`: every field of the summary, with the id field set (overriding one the summary had). */
  function Tag(data: Row, id: WristbandId): (row: Row)
    ensures IdOf(row) == Str(id)
    ensures row.Keys == data.Keys + {IdKey}
    ensures forall k :: k in data && k != IdKey ==> row[k] == data[k]
  {
    data[IdKey := Str(id)]
  }

  /** Some row of `ps` carries the id `id`. */
  ghost predicate Tapped(ps: seq<Row>, id: WristbandId)
  {
    exists i :: 0 <= i < |ps| && IdOf(ps[i]) == Str(id)
  }

  /** `ps.some(player => player.wristbandTranID === id)`. */
  function AnyTagged(ps: seq<Row>, id: WristbandId): (b: bool)
    ensures b <==> Tapped(ps, id)
  {
    if ps == [] then false
    else if IdOf(ps[0]) == Str(id) then true
    else
      var rest := AnyTagged(ps[1..], id);
      assert Tapped(ps[1..], id) ==> Tapped(ps, id) by {
        if Tapped(ps[1..], id) {
          var i :| 0 <= i < |ps[1..]| && IdOf(ps[1..][i]) == Str(id);
          assert IdOf(ps[i + 1]) == Str(id);
        }
      }
      assert Tapped(ps, id) ==> Tapped(ps[1..], id) by {
        if Tapped(ps, id) {
          var i :| 0 <= i < |ps| && IdOf(ps[i]) == Str(id);
          assert i != 0;
          assert IdOf(ps[1..][i - 1]) == Str(id);
        }
      }
      rest
  }

  /** The guard of a scan, over the list it reads: a duplicate id is refused first, then a full list. */
  function Admit(seen: seq<Row>, id: WristbandId): (a: Admission)
    ensures a == AlreadyTapped <==> Tapped(seen, id)
    ensures a == PlayerLimit <==> !Tapped(seen, id) && |seen| >= MaxPlayers
    ensures a == Admitted <==> !Tapped(seen, id) && |seen| < MaxPlayers
  {
    if AnyTagged(seen, id) then AlreadyTapped
    else if |seen| >= MaxPlayers then PlayerLimit
    else Admitted
  }

  /** At most five players, no wristband id twice. */
  ghost predicate Admissible(ps: seq<Row>)
  {
    |ps| <= MaxPlayers &&
    forall i, j :: 0 <= i < j < |ps| ==> IdOf(ps[i]) != IdOf(ps[j])
  }

  /**
    The player list after one scan: the guard reads `seen`, while the append
    extends `current`, the list as it stands when the lookup answers.
   */
  function ScanList(seen: seq<Row>, current: seq<Row>, id: WristbandId, lookup: Option<Row>): (r: seq<Row>)
    ensures Admit(seen, id) != Admitted || lookup.None? ==> r == current
    ensures Admit(seen, id) == Admitted && lookup.Some? ==>
      |r| == |current| + 1 && r[..|current|] == current && r[|current|] == Tag(lookup.value, id)
  {
    if Admit(seen, id) == Admitted && lookup.Some? then current + [Tag(lookup.value, id)] else current
  }

  /** Scans handled one after another, each guard seeing the list as it stands. */
  function ScanAll(ps: seq<Row>, scans: seq<Scan>): seq<Row>
    decreases |scans|
  {
    if scans == [] then ps
    else ScanAll(ScanList(ps, ps, scans[0].id, scans[0].lookup), scans[1..])
  }

  /** A duplicate scan leaves the list unchanged. */
  lemma DuplicateScanRejected(seen: seq<Row>, current: seq<Row>, id: WristbandId, lookup: Option<Row>)
    requires Tapped(seen, id)
    ensures Admit(seen, id) == AlreadyTapped
    ensures ScanList(seen, current, id, lookup) == current
  {
  }

  /** Once the guard sees five players, any further scan leaves the list unchanged. */
  lemma FullListRejects(seen: seq<Row>, current: seq<Row>, id: WristbandId, lookup: Option<Row>)
    requires |seen| >= MaxPlayers
    ensures Admit(seen, id) != Admitted
    ensures ScanList(seen, current, id, lookup) == current
  {
  }

  /** When guard and append see the same list, one scan keeps it admissible. */
  lemma ScanKeepsAdmissible(ps: seq<Row>, id: WristbandId, lookup: Option<Row>)
    requires Admissible(ps)
    ensures Admissible(ScanList(ps, ps, id, lookup))
  {
  }

  /** Any run of scans whose guards see the current list keeps at most five players with distinct ids. */
  lemma {:induction false} ScansKeepAdmissible(ps: seq<Row>, scans: seq<Scan>)
    requires Admissible(ps)
    ensures Admissible(ScanAll(ps, scans))
    decreases |scans|
  {
    if scans != [] {
      ScanKeepsAdmissible(ps, scans[0].id, scans[0].lookup);
      ScansKeepAdmissible(ScanList(ps, ps, scans[0].id, scans[0].lookup), scans[1..]);
    }
  }

  /** Scans only ever append: the list before is a prefix of the list after, and no scan can grow it by more than one. */
  lemma {:induction false} ScansOnlyAppend(ps: seq<Row>, scans: seq<Scan>)
    ensures ps <= ScanAll(ps, scans)
    ensures |ScanAll(ps, scans)| <= |ps| + |scans|
    decreases |scans|
  {
    if scans != [] {
      var next := ScanList(ps, ps, scans[0].id, scans[0].lookup);
      ScansOnlyAppend(next, scans[1..]);
      assert ps <= next;
    }
  }

  /** With a stale guard list, the append still happens: it neither re-checks the id nor the count of the current list. */
  lemma StaleGuardStillAppends(seen: seq<Row>, current: seq<Row>, id: WristbandId, data: Row)
    requires !Tapped(seen, id) && |seen| < MaxPlayers
    ensures ScanList(seen, current, id, Some(data)) == current + [Tag(data, id)]
  {
  }

  /** When guard and append see different lists, a sixth player or a repeated id can be stored. */
  lemma StaleGuardBreaksBound()
    ensures exists seen, current, id, data ::
      Admissible(seen) && Admissible(current) && |ScanList(seen, current, id, Some(data))| > MaxPlayers
    ensures exists seen, current, id, data ::
      Admissible(seen) && Admissible(current) && !Admissible(ScanList(seen, current, id, Some(data)))
      && |ScanList(seen, current, id, Some(data))| <= MaxPlayers
  {
    var blank: Row := map[];
    var five := [Tag(blank, "1"), Tag(blank, "2"), Tag(blank, "3"), Tag(blank, "4"), Tag(blank, "5")];
    assert Admissible(five);
    assert !Tapped([], "6");
    assert |ScanList([], five, "6", Some(blank))| == 6;
    var one := [Tag(blank, "W1")];
    assert !Tapped([], "W1");
    var twice := ScanList([], one, "W1", Some(blank));
    assert IdOf(twice[0]) == IdOf(twice[1]);
    assert !Admissible(twice);
  }

  /**
    Scans through the handler registered on mount: the effect that registers it
    runs once, so it keeps the first render's `fetchPlayerInfo`, whose guard
    reads the initial empty list, while each append extends the current list.
   */
  function MountedScanAll(ps: seq<Row>, scans: seq<Scan>): seq<Row>
    decreases |scans|
  {
    if scans == [] then ps
    else MountedScanAll(ScanList([], ps, scans[0].id, scans[0].lookup), scans[1..])
  }

  /** Through the mounted handler no tap is refused: every lookup that answers appends a row with its id. */
  lemma {:induction false} MountedHandlerStoresEveryTap(ps: seq<Row>, scans: seq<Scan>)
    requires forall n :: 0 <= n < |scans| ==> scans[n].lookup.Some?
    ensures ps <= MountedScanAll(ps, scans)
    ensures |MountedScanAll(ps, scans)| == |ps| + |scans|
    ensures forall n :: 0 <= n < |scans| ==> IdOf(MountedScanAll(ps, scans)[|ps| + n]) == Str(scans[n].id)
    decreases |scans|
  {
    if scans != [] {
      assert !Tapped([], scans[0].id);
      var next := ScanList([], ps, scans[0].id, scans[0].lookup);
      assert next == ps + [Tag(scans[0].lookup.value, scans[0].id)];
      assert forall n :: 0 <= n < |scans[1..]| ==> scans[1..][n].lookup.Some? by {
        forall n | 0 <= n < |scans[1..]| ensures scans[1..][n].lookup.Some? {
          assert scans[1..][n] == scans[n + 1];
        }
      }
      MountedHandlerStoresEveryTap(next, scans[1..]);
      var r := MountedScanAll(ps, scans);
      assert r == MountedScanAll(next, scans[1..]);
      forall n | 0 <= n < |scans| ensures IdOf(r[|ps| + n]) == Str(scans[n].id) {
        if n == 0 {
          assert r[|ps|] == next[|ps|];
        } else {
          assert r[|ps| + n] == r[|next| + (n - 1)];
          assert scans[1..][n - 1] == scans[n];
        }
      }
    }
  }

  /** Through the mounted handler a wristband tapped twice is stored twice, and a sixth player is stored. */
  lemma MountedHandlerAdmitsRepeatAndSixth(data: Row)
    ensures !Admissible(MountedScanAll([], [Scan("W1", Some(data)), Scan("W1", Some(data))]))
    ensures |MountedScanAll([], [Scan("1", Some(data)), Scan("2", Some(data)), Scan("3", Some(data)),
                                 Scan("4", Some(data)), Scan("5", Some(data)), Scan("6", Some(data))])| == 6
  {
    var twice := [Scan("W1", Some(data)), Scan("W1", Some(data))];
    MountedHandlerStoresEveryTap([], twice);
    var r := MountedScanAll([], twice);
    assert IdOf(r[0]) == Str("W1") == IdOf(r[1]);
    MountedHandlerStoresEveryTap([], [Scan("1", Some(data)), Scan("2", Some(data)), Scan("3", Some(data)),
                                      Scan("4", Some(data)), Scan("5", Some(data)), Scan("6", Some(data))]);
  }

  // ---------------------------------------------------------------------------
  // Pure rules of the page

  /** The Start button's `disabled` expression. */
  predicate StartDisabled(enabled: bool, selected: Option<Variant>, status: Value)
  {
    !enabled || selected.None? || status == Running
  }

  /** The Start button's text. */
  function StartText(status: Value): string
  {
    if status == Running then WaitLabel else StartLabel
  }

  /** The wait message shows exactly while the game runs, and whenever it shows the button is disabled. */
  lemma WaitLabelMeansDisabled(enabled: bool, selected: Option<Variant>, status: Value)
    ensures StartText(status) == WaitLabel <==> status == Running
    ensures StartText(status) == WaitLabel ==> StartDisabled(enabled, selected, status)
  {
  }

  /** The mapping of the highest-scores response onto the displayed scores (the 360-day slot takes the all-time value). */
  function HighScoresOf(d: ScoresResponse): (h: HighScores)
    ensures Truthy(d.highestToday) ==> h.today == d.highestToday
    ensures Truthy(d.highest90Days) ==> h.last90Days == d.highest90Days
    ensures Truthy(d.highestAllTime) ==> h.last360Days == d.highestAllTime
    ensures !Truthy(d.highestToday) ==> h.today == Num(0.0)
    ensures !Truthy(d.highest90Days) ==> h.last90Days == Num(0.0)
    ensures !Truthy(d.highestAllTime) ==> h.last360Days == Num(0.0)
  {
    HighScores(OrZero(d.highestToday), OrZero(d.highest90Days), OrZero(d.highestAllTime))
  }

  /** The scores shown before any response arrives. */
  const InitialHighScores: HighScores := HighScores(Num(0.0), Num(0.0), Num(0.0))

  /** A response without scores shows the same as the initial state, and no shown score is ever undefined, null, NaN or "". */
  lemma EmptyScoresShowZero(d: ScoresResponse)
    ensures HighScoresOf(ScoresResponse(Undefined, Undefined, Undefined)) == InitialHighScores
    ensures var h := HighScoresOf(d);
      (Truthy(h.today) || h.today == Num(0.0)) &&
      (Truthy(h.last90Days) || h.last90Days == Num(0.0)) &&
      (Truthy(h.last360Days) || h.last360Days == Num(0.0))
  {
  }

  /** The variant selected once the game lookup answers: the first variant of the first record, if there is one. */
  function DefaultVariant(data: seq<GameRecord>, selected: Option<Variant>): (r: Option<Variant>)
    ensures |data| > 0 && |data[0].variants| > 0 ==> r == Some(data[0].variants[0])
    ensures !(|data| > 0 && |data[0].variants| > 0) ==> r == selected
  {
    if |data| > 0 && |data[0].variants| > 0 then Some(data[0].variants[0]) else selected
  }

  /** The variant the lookup selects is one the game's first record offers. */
  lemma DefaultVariantOffered(data: seq<GameRecord>, selected: Option<Variant>)
    requires |data| > 0 && |data[0].variants| > 0
    ensures DefaultVariant(data, selected).Some?
    ensures DefaultVariant(data, selected).value in data[0].variants
  {
  }

  /** The game record carries an address and a port to reach the game server at. */
  predicate Reachable(game: Option<GameRecord>)
  {
    game.Some? && Truthy(game.value.ipAddress) && Truthy(game.value.localPort)
  }

  /** The guard of the status poll: polling runs once a card is scanned, and each tick fetches only if the game is reachable. */
  predicate PollsStatus(cardScanned: bool, game: Option<GameRecord>)
  {
    cardScanned && Reachable(game)
  }

  /** The Start handler: it sends a request only when variant, game code, game data, address and port are all present. */
  function StartAction(selected: Option<Variant>, gameCode: Value, game: Option<GameRecord>): (r: StartOutcome)
    ensures r.StartRequest? <==> selected.Some? && Truthy(gameCode) && Reachable(game)
    ensures r.StartRequest? ==>
      r.gameCode == gameCode && r.variantCode == selected.value.name &&
      r.ip == game.value.ipAddress && r.port == game.value.localPort
  {
    if selected.Some? && Truthy(gameCode) && Reachable(game) then
      StartRequest(gameCode, selected.value.name, game.value.ipAddress, game.value.localPort)
    else
      MissingInformation
  }

  /** A game the Start handler can start is one the status poll can reach as soon as a card is scanned. */
  lemma StartableIsPollable(selected: Option<Variant>, gameCode: Value, game: Option<GameRecord>)
    requires StartAction(selected, gameCode, game).StartRequest?
    ensures PollsStatus(true, game)
  {
  }

  /** The flags are only ever raised by a successful scan. */
  predicate FlagsConsistent(players: seq<Row>, startEnabled: bool, cardScanned: bool)
  {
    (startEnabled ==> |players| > 0) && (cardScanned ==> |players| > 0)
  }

  /** With consistent flags, no scanned player means Start is disabled and no status poll runs. */
  lemma NoPlayerNoStart(players: seq<Row>, startEnabled: bool, cardScanned: bool,
                        selected: Option<Variant>, status: Value, game: Option<GameRecord>)
    requires FlagsConsistent(players, startEnabled, cardScanned)
    requires players == []
    ensures StartDisabled(startEnabled, selected, status)
    ensures !PollsStatus(cardScanned, game)
  {
  }

  // ---------------------------------------------------------------------------
  // The page's state

  class Session {
    var players: seq<Row>
    var startEnabled: bool
    var cardScanned: bool
    var gameStatus: Value
    var selected: Option<Variant>
    var highScores: HighScores
    var isModalOpen: bool

    predicate Valid()
      reads this
    {
      FlagsConsistent(players, startEnabled, cardScanned)
    }

    /** The state on mount. */
    constructor ()
      ensures Valid()
      ensures players == [] && !startEnabled && !cardScanned
      ensures gameStatus == Str("") && selected == None
      ensures highScores == InitialHighScores && !isModalOpen
    {
      players := [];
      startEnabled := false;
      cardScanned := false;
      gameStatus := Str("");
      selected := None;
      highScores := InitialHighScores;
      isModalOpen := false;
    }

    /** The Start button's `disabled` value in this state. */
    function StartIsDisabled(): bool
      reads this
    {
      StartDisabled(startEnabled, selected, gameStatus)
    }

    /** The state updater passed to `setPlayersData`: append the tagged row and raise both flags. */
    method AppendPlayer(data: Row, id: WristbandId)
      requires Valid()
      modifies this
      ensures Valid()
      ensures players == old(players) + [Tag(data, id)]
      ensures startEnabled && cardScanned
      ensures gameStatus == old(gameStatus) && selected == old(selected)
      ensures highScores == old(highScores) && isModalOpen == old(isModalOpen)
    {
      var updated := players + [Tag(data, id)];
      if |updated| > 0 {
        startEnabled := true;
        cardScanned := true;
      }
      players := updated;
    }

    /**
      A wristband tap: the guard reads `seen`, the list the handler captured;
      after a successful lookup the row is appended to the list as it is then.
     */
    method FetchPlayerInfo(seen: seq<Row>, id: WristbandId, lookup: Option<Row>) returns (outcome: ScanOutcome)
      requires Valid()
      modifies this
      ensures Valid()
      ensures outcome == (if Admit(seen, id) != Admitted then Rejected(Admit(seen, id))
                          else if lookup.None? then LookupFailed else Added)
      ensures players == ScanList(seen, old(players), id, lookup)
      ensures outcome == Added ==> startEnabled && cardScanned
      ensures outcome != Added ==> startEnabled == old(startEnabled) && cardScanned == old(cardScanned)
      ensures gameStatus == old(gameStatus) && selected == old(selected)
      ensures highScores == old(highScores) && isModalOpen == old(isModalOpen)
      ensures seen == old(players) && Admissible(old(players)) ==> Admissible(players)
    {
      if AnyTagged(seen, id) {
        return Rejected(AlreadyTapped);
      }
      if |seen| >= MaxPlayers {
        return Rejected(PlayerLimit);
      }
      if lookup.None? {
        return LookupFailed;
      }
      if seen == players && Admissible(players) {
        ScanKeepsAdmissible(players, id, lookup);
      }
      AppendPlayer(lookup.value, id);
      outcome := Added;
    }

    /** A status-poll response: record the status; "Running" clears the enabled flag. */
    method OnGameStatus(status: Value)
      requires Valid()
      modifies this
      ensures Valid()
      ensures gameStatus == status
      ensures startEnabled == (old(startEnabled) && status != Running)
      ensures players == old(players) && cardScanned == old(cardScanned) && selected == old(selected)
      ensures highScores == old(highScores) && isModalOpen == old(isModalOpen)
      ensures status == Running ==> StartIsDisabled()
    {
      gameStatus := status;
      if status == Running {
        startEnabled := false;
      }
    }

    /** The high-score response handler. */
    method OnHighScores(d: ScoresResponse)
      requires Valid()
      modifies this`highScores
      ensures Valid()
      ensures highScores == HighScoresOf(d)
    {
      highScores := HighScoresOf(d);
    }

    /** The game lookup handler's choice of default variant. */
    method OnGameLoaded(data: seq<GameRecord>)
      requires Valid()
      modifies this`selected
      ensures Valid()
      ensures selected == DefaultVariant(data, old(selected))
    {
      if |data| > 0 && |data[0].variants| > 0 {
        selected := Some(data[0].variants[0]);
      }
    }

    /** Clicking a variant selects it and opens its instructions. */
    method SelectVariant(v: Variant)
      requires Valid()
      modifies this`selected, this`isModalOpen
      ensures Valid()
      ensures selected == Some(v) && isModalOpen
    {
      selected := Some(v);
      isModalOpen := true;
    }

    method CloseModal()
      requires Valid()
      modifies this`isModalOpen
      ensures Valid()
      ensures !isModalOpen
    {
      isModalOpen := false;
    }
  }

  /**
    A session that admitted a player, saw "Running" and then "Finished" keeps
    Start disabled: nothing raises the enabled flag again except another scan.
   */
  method RunningThenFinishedKeepsStartDisabled() returns (disabled: bool)
    ensures disabled
  {
    var s := new Session();
    var outcome := s.FetchPlayerInfo([], "W1", Some(map[]));
    s.SelectVariant(Variant(Num(1.0), "Classic", ""));
    s.OnGameStatus(Running);
    s.OnGameStatus(Str("Finished"));
    disabled := s.StartIsDisabled();
  }

  /** Tapping the same wristband twice adds one player; the second tap is refused. */
  method SameWristbandTwice() returns (first: ScanOutcome, second: ScanOutcome, count: nat)
    ensures first == Added && second == Rejected(AlreadyTapped) && count == 1
  {
    var s := new Session();
    first := s.FetchPlayerInfo(s.players, "W1", Some(map[]));
    second := s.FetchPlayerInfo(s.players, "W1", Some(map[]));
    count := |s.players|;
  }
}
