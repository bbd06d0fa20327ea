/**
 * The "play route" demo (the click handler of `play-route`, `animateRoute` and
 * `updateNodeInfo`, app.js). A cursor walks the waypoint table; each step draws
 * the segment to the next waypoint as 101 interpolated points, shows the record
 * found at the cursor's position as a new card, advances the cursor and
 * schedules the next step. The record table is two entries shorter than the
 * waypoint table, so the step at cursor 7 draws its segment and then fails on
 * the missing record: the demo halts there with an exception.
 *
 * The pure functions below (StepRoute, Run) specify one step and a whole run;
 * the class RoutePlayer holds the page state the handlers change and is proved
 * against them.
 */
module RouteSequencer {
  import opened Wrappers
  import opened Segments
  import opened RouteData
  import opened InfoPanel

  /** How a call of `animateRoute` ends: it returned without rescheduling, it scheduled the next call, or it threw. */
  datatype Outcome = Returned | Scheduled | Threw

  /** What the sequencer reads and changes: cursor, polyline, map centre, cards and the current-node label. */
  datatype RouteState = RouteState(cursor: nat, polyline: seq<LatLng>, center: Option<LatLng>,
                                   cards: seq<Card>, currentNode: string)

  datatype StepResult = StepResult(outcome: Outcome, state: RouteState)

  /** The `if (end)` part of a step: draw the segment to the next waypoint when there is one. */
  function DrawNextSegment(s: RouteState): RouteState
  {
    if s.cursor + 1 < |RouteCoordinates| then
      s.(polyline := s.polyline + SegmentPoints(RouteCoordinates[s.cursor], RouteCoordinates[s.cursor + 1]),
         center := Some(RouteCoordinates[s.cursor + 1]))
    else s
  }

  /** One call of `animateRoute`. */
  function StepRoute(s: RouteState): (r: StepResult)
    ensures r.outcome == Returned <==> |RouteCoordinates| <= s.cursor
    ensures r.outcome == Scheduled <==> s.cursor < |Countries|
    ensures r.outcome == Returned ==> r.state == s
    ensures r.outcome == Scheduled ==>
      r.state.cursor == s.cursor + 1 &&
      r.state.cards == PushCard(s.cards, Card(Countries[s.cursor], s.cursor + 1)) &&
      r.state.currentNode == Countries[s.cursor].name
    ensures r.outcome == Threw ==>
      r.state.cursor == s.cursor && r.state.cards == s.cards && r.state.currentNode == s.currentNode
    ensures s.cursor + 1 < |RouteCoordinates| ==>
      r.state.polyline == s.polyline + SegmentPoints(RouteCoordinates[s.cursor], RouteCoordinates[s.cursor + 1]) &&
      r.state.center == Some(RouteCoordinates[s.cursor + 1])
    ensures |RouteCoordinates| <= s.cursor + 1 ==>
      r.state.polyline == s.polyline && r.state.center == s.center
  {
    if |RouteCoordinates| <= s.cursor then StepResult(Returned, s)
    else
      var drawn := DrawNextSegment(s);
      match RecordAt(s.cursor)
      case None => StepResult(Threw, drawn)
      case Some(data) =>
        StepResult(Scheduled, drawn.(cards := PushCard(drawn.cards, Card(data, s.cursor + 1)),
                                     currentNode := data.name,
                                     cursor := s.cursor + 1))
  }

  /** The chain of calls `animateRoute` schedules for itself, until one does not. */
  function Run(s: RouteState): (r: StepResult)
    ensures r.outcome != Scheduled
    decreases |RouteCoordinates| - s.cursor
  {
    var step := StepRoute(s);
    if step.outcome == Scheduled then Run(step.state) else step
  }

  /** The points drawn from waypoint `i` to the last one, segment after segment. */
  function Path(i: nat): (r: seq<LatLng>)
    ensures i < |RouteCoordinates| ==> |r| == 101 * (|RouteCoordinates| - 1 - i)
  {
    if i <= |RouteCoordinates| then Polyline(RouteCoordinates[i..]) else []
  }

  /** The cards shown from cursor `i` on, oldest first: record `j` as station `j + 1`. */
  function CardsFrom(i: nat): (r: seq<Card>)
    ensures |r| == if i <= |Countries| then |Countries| - i else 0
    ensures forall k :: 0 <= k < |r| ==> r[k] == Card(Countries[i + k], i + k + 1)
    decreases |Countries| - i
  {
    if i < |Countries| then [Card(Countries[i], i + 1)] + CardsFrom(i + 1) else []
  }

  /** Concatenation regroups freely. */
  lemma AppendAssoc<T>(a: seq<T>, b: seq<T>, c: seq<T>)
    ensures (a + b) + c == a + (b + c)
  {
  }

  /**
   * From any cursor up to 7 the run ends by throwing at cursor 7, after
   * drawing every remaining segment, showing every remaining record, and
   * centring the map on the last waypoint.
   */
  lemma {:induction false} RunFrom(s: RouteState)
    requires s.cursor <= |Countries|
    ensures Run(s).outcome == Threw
    ensures Run(s).state.cursor == |Countries|
    ensures Run(s).state.polyline == s.polyline + Path(s.cursor)
    ensures Run(s).state.center == Some(RouteCoordinates[|RouteCoordinates| - 1])
    ensures Run(s).state.cards == PushAll(s.cards, CardsFrom(s.cursor))
    ensures Run(s).state.currentNode ==
      if s.cursor < |Countries| then Countries[|Countries| - 1].name else s.currentNode
    decreases |Countries| - s.cursor
  {
    if s.cursor < |Countries| {
      var next := StepRoute(s).state;
      StepThenRun(s);
      PathUnfold(s.cursor);
      RunFrom(next);
      AppendAssoc(s.polyline, SegmentPoints(RouteCoordinates[s.cursor], RouteCoordinates[s.cursor + 1]), Path(s.cursor + 1));
    } else {
      LastStep(s);
    }
  }

  /** Below cursor 7 a run is the step followed by the run from the step's state. */
  lemma StepThenRun(s: RouteState)
    requires s.cursor < |Countries|
    ensures Run(s) == Run(StepRoute(s).state)
    ensures PushAll(s.cards, CardsFrom(s.cursor)) == PushAll(StepRoute(s).state.cards, CardsFrom(s.cursor + 1))
  {
    assert CardsFrom(s.cursor) == [Card(Countries[s.cursor], s.cursor + 1)] + CardsFrom(s.cursor + 1);
  }

  /** At cursor 7 the step draws the last segment and throws. */
  lemma LastStep(s: RouteState)
    requires s.cursor == |Countries|
    ensures Run(s) == StepRoute(s)
    ensures StepRoute(s).state.polyline == s.polyline + Path(s.cursor)
    ensures CardsFrom(s.cursor) == []
  {
    var seg := SegmentPoints(RouteCoordinates[s.cursor], RouteCoordinates[s.cursor + 1]);
    PathUnfold(s.cursor);
    assert Path(s.cursor + 1) == [];
    assert seg + [] == seg;
  }

  /** A path from a waypoint that has a successor is its first segment followed by the rest. */
  lemma PathUnfold(i: nat)
    requires i + 1 < |RouteCoordinates|
    ensures Path(i) == SegmentPoints(RouteCoordinates[i], RouteCoordinates[i + 1]) + Path(i + 1)
  {
    var w := RouteCoordinates[i..];
    assert w[0] == RouteCoordinates[i] && w[1] == RouteCoordinates[i + 1];
    assert w[1..] == RouteCoordinates[i + 1..];
  }

  /** The polyline of a run holds, at offset `101 * j + k`, point `k` of segment `i + j`. */
  lemma PathAt(i: nat, j: nat, k: nat)
    requires i + j + 1 < |RouteCoordinates| && k <= 100
    ensures 101 * j + k < |Path(i)|
    ensures Path(i)[101 * j + k] == Interpolate(RouteCoordinates[i + j], RouteCoordinates[i + j + 1], k)
  {
    var w := RouteCoordinates[i..];
    PolylineAt(w, j, k);
    assert w[j] == RouteCoordinates[i + j] && w[j + 1] == RouteCoordinates[i + j + 1];
  }

  /** The state the click handler hands to the first step: a fresh polyline on a map that exists. */
  function Armed(s: RouteState): RouteState
  {
    s.(polyline := [], center := if s.center.None? then Some(DefaultCenter) else s.center)
  }

  /**
   * Whatever the panel held (within its cap), the seven cards of a whole run
   * leave exactly the five most recent of them, newest first.
   */
  lemma NewestFive(cards: seq<Card>)
    requires |cards| <= MaxCards
    ensures |CardsFrom(0)| == 7
    ensures |PushAll(cards, CardsFrom(0))| == MaxCards
    ensures forall k :: 0 <= k < MaxCards ==> PushAll(cards, CardsFrom(0))[k] == CardsFrom(0)[6 - k]
  {
    var news := CardsFrom(0);
    PushAllNewestAt(cards, news, 0);
    forall k | 0 <= k < MaxCards
      ensures PushAll(cards, news)[k] == news[6 - k]
    {
      PushAllNewestAt(cards, news, k);
    }
  }

  /**
   * A run from the page's starting cursor draws 8 segments of 101 points,
   * ends centred on Madrid and throws with the cursor at 7, the current-node
   * label naming Madrid.
   */
  lemma FullRun(s: RouteState)
    requires s.cursor == 0
    ensures Run(Armed(s)).outcome == Threw
    ensures Run(Armed(s)).state.cursor == 7
    ensures Run(Armed(s)).state.polyline == Path(0) && |Path(0)| == 8 * 101
    ensures Run(Armed(s)).state.center == Some(RouteCoordinates[8])
    ensures Run(Armed(s)).state.currentNode == "马德里"
  {
    var armed := Armed(s);
    RunFrom(armed);
    assert armed.polyline + Path(0) == Path(0);
  }

  /**
   * After a run from the page's starting cursor the panel holds the cards of
   * stations 7 down to 3, whatever it held before (within its cap).
   */
  lemma FullRunPanel(s: RouteState)
    requires s.cursor == 0 && |s.cards| <= MaxCards
    ensures Run(Armed(s)).state.cards == PushAll(s.cards, CardsFrom(0))
    ensures |Run(Armed(s)).state.cards| == MaxCards
    ensures forall k :: 0 <= k < MaxCards ==> Run(Armed(s)).state.cards[k] == CardsFrom(0)[6 - k]
    ensures Run(Armed(s)).state.cards[0] == Card(Countries[6], 7)
    ensures Run(Armed(s)).state.cards[MaxCards - 1] == Card(Countries[2], 3)
  {
    RunFrom(Armed(s));
    NewestFive(s.cards);
  }

  /**
   * Cards are chosen by position, not by place: after the Lanzhou to Urumqi
   * segment the new card describes Alashankou, a waypoint further on.
   */
  lemma CardByPosition(s: RouteState)
    requires s.cursor == 4
    ensures var r := StepRoute(s);
      r.outcome == Scheduled && r.state.center == Some(RouteCoordinates[5]) &&
      r.state.cards[0] == Card(Countries[4], 5) && r.state.cards[0].record.name == "阿拉山口" &&
      r.state.cards[0].record.coords != RouteCoordinates[5]
  {
  }

  /** The module-level state of the route demo, together with the page elements it drives. */
  class RoutePlayer {
    var previewVisible: bool
    var playEnabled: bool
    var mapCenter: Option<LatLng>
    var polyline: seq<LatLng>
    var cursor: nat
    var cards: seq<Card>
    var currentNode: string

    function State(): RouteState
      reads this
    {
      RouteState(cursor, polyline, mapCenter, cards, currentNode)
    }

    /** The cursor never passes the record table, and the panel never exceeds its cap. */
    predicate Valid()
      reads this
    {
      cursor <= |Countries| && |cards| <= MaxCards
    }

    /**
     * Page load: preview shown, button enabled, no map, no polyline, cursor 0;
     * the panel and the current-node label hold whatever the page's markup puts there.
     */
    constructor (cards: seq<Card>, currentNode: string)
      requires |cards| <= MaxCards
      ensures Valid() && previewVisible && playEnabled
      ensures State() == RouteState(0, [], None, cards, currentNode)
    {
      previewVisible, playEnabled := true, true;
      mapCenter, polyline, cursor := None, [], 0;
      this.cards, this.currentNode := cards, currentNode;
    }

    /**
     * `updateNodeInfo(data)`: a missing record throws on reading its name
     * before anything changes; otherwise the current-node label shows the name, the card
     * (station `cursor + 1`) is prepended, and the last card is dropped when
     * the panel then holds more than `MaxCards`.
     */
    method UpdateNodeInfo(data: Option<Country>) returns (ok: bool)
      modifies this`cards, this`currentNode
      ensures ok <==> data.Some?
      ensures ok ==> cards == PushCard(old(cards), Card(data.value, cursor + 1)) && currentNode == data.value.name
      ensures !ok ==> cards == old(cards) && currentNode == old(currentNode)
    {
      if data.None? {
        return false;
      }
      currentNode := data.value.name;
      cards := [Card(data.value, cursor + 1)] + cards;
      if |cards| > MaxCards {
        cards := cards[..|cards| - 1];
      }
      ok := true;
    }

    /**
     * The interpolation loop of `animateRoute`: append the 101 points of the
     * segment one by one, panning the map to each.
     */
    method DrawSegment(start: LatLng, end: LatLng)
      modifies this`polyline, this`mapCenter
      ensures polyline == old(polyline) + SegmentPoints(start, end)
      ensures mapCenter == Some(end)
    {
      for k := 0 to 101
        invariant polyline == old(polyline) + SegmentPoints(start, end)[..k]
        invariant k > 0 ==> mapCenter == Some(Interpolate(start, end, k - 1))
      {
        var lat := start.lat + (end.lat - start.lat) * (k as real / 100.0);
        var lng := start.lng + (end.lng - start.lng) * (k as real / 100.0);
        assert LatLng(lat, lng) == Interpolate(start, end, k) == SegmentPoints(start, end)[k];
        assert SegmentPoints(start, end)[..k + 1] == SegmentPoints(start, end)[..k] + [LatLng(lat, lng)];
        polyline := polyline + [LatLng(lat, lng)];
        mapCenter := Some(LatLng(lat, lng));
      }
      assert SegmentPoints(start, end)[..101] == SegmentPoints(start, end);
    }

    /** One call of `animateRoute`. */
    method AnimateRoute() returns (outcome: Outcome)
      requires Valid()
      modifies this`polyline, this`mapCenter, this`cursor, this`cards, this`currentNode
      ensures Valid()
      ensures StepResult(outcome, State()) == StepRoute(old(State()))
    {
      if cursor >= |RouteCoordinates| {
        return Returned;
      }
      if cursor + 1 < |RouteCoordinates| {
        DrawSegment(RouteCoordinates[cursor], RouteCoordinates[cursor + 1]);
      }
      var ok := UpdateNodeInfo(RecordAt(cursor));
      if !ok {
        return Threw;
      }
      cursor := cursor + 1;
      outcome := Scheduled;
    }

    /**
     * A click on the play button. A disabled button dispatches nothing.
     * Otherwise the preview goes, the map is created if missing, a fresh
     * polyline is attached, the button is disabled, and the step chain runs
     * until a step does not schedule the next one.
     */
    method PlayRoute() returns (outcome: Option<Outcome>)
      requires Valid()
      modifies this
      ensures Valid()
      ensures !old(playEnabled) ==>
        outcome == None && State() == old(State()) &&
        playEnabled == old(playEnabled) && previewVisible == old(previewVisible)
      ensures old(playEnabled) ==>
        !playEnabled && !previewVisible && outcome.Some? &&
        StepResult(outcome.value, State()) == Run(Armed(old(State())))
    {
      if !playEnabled {
        return None;
      }
      previewVisible := false;
      if mapCenter.None? {
        mapCenter := Some(DefaultCenter);
      }
      polyline := [];
      playEnabled := false;
      ghost var armed := State();
      var o := AnimateRoute();
      while o == Scheduled
        invariant Valid() && !playEnabled && !previewVisible
        invariant o == Scheduled ==> Run(State()) == Run(armed)
        invariant o != Scheduled ==> StepResult(o, State()) == Run(armed)
        decreases (if o == Scheduled then 1 else 0) + |RouteCoordinates| - cursor
      {
        o := AnimateRoute();
      }
      outcome := Some(o);
    }
  }
}
