/**
 * The root feature of the Standups app: its state (the navigation path and
 * the standups list), its actions, and the reducer step that interprets the
 * delegate actions the detail and record-meeting screens send upward.
 *
 * The child reducers (standups list, standup detail, record meeting) are not
 * part of this model; at this level they leave the root state unchanged.
 * The `uuid` and `date.now` dependencies are parameters of the step.
 */
module AppFeature {
  import opened Wrappers
  import opened Models
  import opened IdentifiedArray
  import opened StackState

  // ---------------------------------------------------------------- state

  /** One screen on the navigation stack (`AppFeature.Path.State`). */
  datatype PathState =
    | Detail(standup: Standup)                          // StandupDetail.State
    | MeetingScreen(meeting: Meeting, standup: Standup) // .meeting(Meeting, standup:)
    | Record(standup: Standup)                          // RecordMeeting.State

  /** `AppFeature.State`: the navigation path and the standups list. */
  datatype State = State(path: seq<Entry<PathState>>, standups: seq<Standup>)

  /** What the identified collections guarantee by construction. */
  ghost predicate ValidState(s: State) {
    UniqueKeys(s.path) && UniqueIds(s.standups)
  }

  // -------------------------------------------------------------- actions

  datatype DetailDelegateAction = DeleteStandup | StandupUpdated(updated: Standup) | StartMeeting

  /** `StandupDetail.Action`: its delegate actions, and the rest of it as one opaque case. */
  datatype DetailAction = DetailDelegate(delegate: DetailDelegateAction) | DetailOther

  datatype RecordDelegateAction = Save(transcript: string)

  /** `RecordMeeting.Action`: its delegate actions, and the rest of it as one opaque case. */
  datatype RecordAction = RecordDelegate(delegate: RecordDelegateAction) | RecordOther

  /** `AppFeature.Path.Action`. */
  datatype PathAction = DetailAct(detail: DetailAction) | RecordAct(record: RecordAction)

  /** `StackAction<Path.State, Path.Action>`. */
  datatype StackAction =
    | Element(id: ElementId, action: PathAction)
    | PopFrom(id: ElementId)
    | Push(id: ElementId, state: PathState)

  /** `StandupsList.Action`, opaque at this level. */
  datatype StandupsListAction = StandupsListAction(tag: nat)

  /** `AppFeature.Action`. */
  datatype Action = Path(stack: StackAction) | StandupsList(list: StandupsListAction)

  /**
   * The outcome of one step: the new state, and the test-failure message the
   * step raised through `XCTFail`, if it raised one. The step never returns
   * an effect.
   */
  datatype Outcome = Outcome(state: State, failure: Option<string>)

  /** The message raised when a recording is saved with nothing beneath it. */
  const RecordWithoutDetail: string :=
    "Record meeting is the only element in the stack. A detail feature should precede it."

  /** A detail screen's delegate action, from whichever element. */
  predicate IsDetailDelegate(action: Action) {
    && action.Path?
    && action.stack.Element?
    && action.stack.action.DetailAct?
    && action.stack.action.detail.DetailDelegate?
  }

  /** A record screen's `save` delegate action, from whichever element. */
  predicate IsSave(action: Action) {
    && action.Path?
    && action.stack.Element?
    && action.stack.action.RecordAct?
    && action.stack.action.record.RecordDelegate?
  }

  // ----------------------------------------------------------------- step

  /**
   * The delegate-interpreting `Reduce` closure of `AppFeature.body`.
   * `freshId` is the key the stack's id generator hands to an appended
   * element; `uuid` and `now` are the values the dependencies return.
   */
  function Reduce(s: State, action: Action, freshId: ElementId, uuid: Uuid, now: Date): (r: Outcome)
    requires ValidState(s)
    ensures r.failure.Some? <==> IsSave(action) && |s.path| < 2
    ensures r.failure.Some? ==> r.failure == Some(RecordWithoutDetail) && r.state == s
  {
    match action
    case Path(Element(id, DetailAct(DetailDelegate(d)))) =>
      (match DetailAt(s.path, id)
       case Some(standup) => Outcome(DetailDelegateStep(s, standup, d, freshId), None)
       case None => Outcome(s, None))
    case Path(Element(_, RecordAct(RecordDelegate(Save(transcript))))) =>
      SaveStep(s, transcript, uuid, now)
    case Path(_) => Outcome(s, None)
    case StandupsList(_) => Outcome(s, None)
  }

  /**
   * A detail screen showing `standup` sent delegate action `d`: delete and
   * update touch only the list, start-meeting only the path.
   */
  function DetailDelegateStep(s: State, standup: Standup, d: DetailDelegateAction, freshId: ElementId): (r: State)
    requires ValidState(s)
    ensures UniqueIds(r.standups)
    ensures d.DeleteStandup? ==>
      r.path == s.path && r.standups == Without(s.standups, standup.id)
    ensures d.StandupUpdated? ==>
      && r.path == s.path
      && Lookup(r.standups, d.updated.id) == Some(d.updated)
      && forall k :: k != d.updated.id ==> Lookup(r.standups, k) == Lookup(s.standups, k)
    ensures d.StartMeeting? ==>
      r.standups == s.standups && r.path == s.path + [Entry(freshId, Record(standup))]
    ensures d.StartMeeting? && freshId !in Keys(s.path) ==>
      r.path == StackState.Append(s.path, freshId, Record(standup))
  {
    match d
    case DeleteStandup =>
      RemoveIsWithout(s.standups, standup.id);
      s.(standups := Remove(s.standups, standup.id))
    case StandupUpdated(updated) => s.(standups := Upsert(s.standups, updated))
    case StartMeeting => s.(path := s.path + [Entry(freshId, Record(standup))])
  }

  /**
   * `path[id: id, case: /Path.State.detail]`: the standup of the detail
   * screen under key `id`; nothing when the key is absent or the element
   * there is another kind of screen.
   */
  function DetailAt(path: seq<Entry<PathState>>, id: ElementId): (r: Option<Standup>)
    ensures r.Some? ==> Get(path, id) == Some(Detail(r.value))
    ensures r.None? ==> Get(path, id).None? || !Get(path, id).value.Detail?
  {
    var e: Option<PathState> := Get(path, id);
    if e.Some? && e.value.Detail? then Some(e.value.standup) else None
  }

  /**
   * `path[id: id, case: /Path.State.detail]?.standup.meetings.insert(m, at: 0)`:
   * when the element under `id` is a detail screen, `m` becomes its
   * standup's newest meeting; any other element, or none, stays as it is.
   */
  function InsertMeeting(path: seq<Entry<PathState>>, id: ElementId, m: Meeting): (r: seq<Entry<PathState>>)
    requires UniqueKeys(path)
    ensures UniqueKeys(r) && Keys(r) == Keys(path) && |r| == |path|
    ensures forall j :: 0 <= j < |path| && path[j].id != id ==> r[j] == path[j]
    ensures match DetailAt(path, id)
      case Some(st) => DetailAt(r, id) == Some(st.(meetings := [m] + st.meetings))
      case None => r == path
  {
    match DetailAt(path, id)
    case Some(st) => Replace(path, id, Detail(st.(meetings := [m] + st.meetings)))
    case None => path
  }

  /** The record-meeting screen's `save(transcript:)` delegate action. */
  function SaveStep(s: State, transcript: string, uuid: Uuid, now: Date): (r: Outcome)
    requires ValidState(s)
    ensures r.failure.Some? <==> |s.path| < 2
    ensures r.failure.Some? ==> r.failure == Some(RecordWithoutDetail) && r.state == s
    ensures r.failure.None? ==> |r.state.path| == |s.path| && Keys(r.state.path) == Keys(s.path)
  {
    match SecondFromTop(s.path)
    case None => Outcome(s, Some(RecordWithoutDetail))
    case Some(id) =>
      var path := InsertMeeting(s.path, id, Meeting(uuid, now, transcript));
      (match DetailAt(path, id)
       case Some(standup) => Outcome(State(path, Upsert(s.standups, standup)), None)
       case None => Outcome(s.(path := path), None))
  }

  // ---------------------------------------------------------------- store

  /**
   * The root state as the reducer mutates it in place (`inout State`),
   * with the stack's element-id generator, which hands out increasing keys.
   */
  class Store {
    var path: seq<Entry<PathState>>
    var standups: seq<Standup>
    var nextId: ElementId

    /** Unique keys and ids, and every key on the stack was handed out already. */
    ghost predicate Valid()
      reads this
    {
      && ValidState(State(path, standups))
      && forall i :: 0 <= i < |path| ==> path[i].id < nextId
    }

    /** The value of the root state. */
    function Current(): State
      reads this
    {
      State(path, standups)
    }

    /** `AppFeature.State(standupsList: …)` with an empty path. */
    constructor (standups: seq<Standup>)
      requires UniqueIds(standups)
      ensures Valid() && path == [] && this.standups == standups && nextId == 0
    {
      this.path := [];
      this.standups := standups;
      this.nextId := 0;
    }

    /** `path.append(element)`: push `element` under the next key. */
    method Append(element: PathState)
      requires Valid()
      modifies this
      ensures Valid()
      ensures path == StackState.Append(old(path), old(nextId), element)
      ensures standups == old(standups) && nextId == old(nextId) + 1
    {
      assert nextId !in Keys(path);
      path := StackState.Append(path, nextId, element);
      nextId := nextId + 1;
    }

    /**
     * One action through the root reducer: the delegate-interpreting step
     * updates the state in place, then the persistence reducer captures the
     * standups list for the debounced save.
     */
    method Send(action: Action, uuid: Uuid, now: Date) returns (failure: Option<string>, persisted: seq<Standup>)
      requires Valid()
      modifies this
      ensures Valid()
      ensures Outcome(Current(), failure) == Reduce(old(Current()), action, old(nextId), uuid, now)
      ensures nextId == old(nextId) + (|path| - |old(path)|)
      ensures persisted == standups
    {
      failure := None;
      match action {
        case Path(Element(id, DetailAct(DetailDelegate(d)))) =>
          OnDetailDelegate(id, d);
        case Path(Element(_, RecordAct(RecordDelegate(Save(transcript))))) =>
          failure := OnSave(transcript, uuid, now);
        case Path(_) =>
        case StandupsList(_) =>
      }
      persisted := standups;
    }

    /** The detail screen under key `id` sent delegate action `d`. */
    method OnDetailDelegate(id: ElementId, d: DetailDelegateAction)
      requires Valid()
      modifies this
      ensures Valid()
      ensures Current() == match DetailAt(old(path), id)
        case Some(standup) => DetailDelegateStep(old(Current()), standup, d, old(nextId))
        case None => old(Current())
      ensures nextId == old(nextId) + (|path| - |old(path)|)
    {
      var detail := DetailAt(path, id);
      if detail.Some? {
        var standup := detail.value;
        match d {
          case DeleteStandup =>
            standups := Remove(standups, standup.id);
          case StandupUpdated(updated) =>
            standups := Upsert(standups, updated);
          case StartMeeting =>
            Append(Record(standup));
        }
      }
    }

    /** A record screen sent `save(transcript:)`. */
    method OnSave(transcript: string, uuid: Uuid, now: Date) returns (failure: Option<string>)
      requires Valid()
      modifies this
      ensures Valid()
      ensures Outcome(Current(), failure) == SaveStep(old(Current()), transcript, uuid, now)
      ensures nextId == old(nextId) && |path| == |old(path)|
    {
      failure := None;
      var below := SecondFromTop(path);
      if below.None? {
        failure := Some(RecordWithoutDetail);
      } else {
        var id := below.value;
        path := InsertMeeting(path, id, Meeting(uuid, now, transcript));
        var detail := DetailAt(path, id);
        if detail.Some? {
          standups := Upsert(standups, detail.value);
        }
      }
    }
  }
}
