/**
 * What one step of the app reducer promises, case by case: the delegate
 * actions of the detail screen, the save of the record-meeting screen, and
 * every other action.
 */
module AppFeatureProperties {
  import opened Wrappers
  import opened Models
  import opened IdentifiedArray
  import opened StackState
  import opened AppFeature

  /** The actions the root step interprets; all others pass through. */
  predicate IsDelegate(action: Action) {
    IsDetailDelegate(action) || IsSave(action)
  }

  /** A detail delegate action whose key is missing or not a detail screen changes nothing. */
  lemma DetailDelegateWithoutDetailIsIgnored(
    s: State, id: ElementId, d: DetailDelegateAction, freshId: ElementId, uuid: Uuid, now: Date)
    requires ValidState(s)
    requires Get(s.path, id).None? || !Get(s.path, id).value.Detail?
    ensures Reduce(s, Path(Element(id, DetailAct(DetailDelegate(d)))), freshId, uuid, now) == Outcome(s, None)
  {
  }

  /**
   * `deleteStandup` removes exactly the standup the detail screen shows:
   * the others keep their order and contents, and the path is unchanged.
   */
  lemma DeleteStandupRemovesExactly(
    s: State, id: ElementId, st: Standup, freshId: ElementId, uuid: Uuid, now: Date)
    requires ValidState(s)
    requires Get(s.path, id) == Some(Detail(st))
    ensures var r := Reduce(s, Path(Element(id, DetailAct(DetailDelegate(DeleteStandup)))), freshId, uuid, now);
      && r == Outcome(State(s.path, Without(s.standups, st.id)), None)
      && Ids(r.state.standups) == Ids(s.standups) - {st.id}
  {
    RemoveIsWithout(s.standups, st.id);
  }

  /**
   * After `standupUpdated(u)`, looking up `u.id` in the list gives `u`;
   * every other standup and the path are unchanged.
   */
  lemma StandupUpdatedUpserts(
    s: State, id: ElementId, u: Standup, freshId: ElementId, uuid: Uuid, now: Date)
    requires ValidState(s)
    requires DetailAt(s.path, id).Some?
    ensures var r := Reduce(s, Path(Element(id, DetailAct(DetailDelegate(StandupUpdated(u))))), freshId, uuid, now);
      && r.failure == None
      && r.state.path == s.path
      && Lookup(r.state.standups, u.id) == Some(u)
      && (forall k :: k != u.id ==> Lookup(r.state.standups, k) == Lookup(s.standups, k))
      && ValidState(r.state)
  {
  }

  /**
   * `startMeeting` pushes one record screen, seeded with the detail screen's
   * standup, under the fresh key; the elements beneath and the list are
   * untouched.
   */
  lemma StartMeetingPushesRecord(
    s: State, id: ElementId, st: Standup, freshId: ElementId, uuid: Uuid, now: Date)
    requires ValidState(s)
    requires Get(s.path, id) == Some(Detail(st))
    requires freshId !in Keys(s.path)
    ensures var r := Reduce(s, Path(Element(id, DetailAct(DetailDelegate(StartMeeting)))), freshId, uuid, now);
      && r.failure == None
      && r.state.path == Append(s.path, freshId, Record(st))
      && r.state.standups == s.standups
      && ValidState(r.state)
  {
  }

  /**
   * `save` with fewer than two elements on the stack raises the failure
   * and changes nothing, whichever element sent it.
   */
  lemma SaveWithoutDetailBeneathFails(
    s: State, sender: ElementId, transcript: string, freshId: ElementId, uuid: Uuid, now: Date)
    requires ValidState(s)
    requires |s.path| < 2
    ensures Reduce(s, Path(Element(sender, RecordAct(RecordDelegate(Save(transcript))))), freshId, uuid, now)
      == Outcome(s, Some(RecordWithoutDetail))
  {
  }

  /**
   * `save` with a detail screen directly beneath the top: that screen's
   * standup gets the new meeting (fresh id, current date, the transcript) at
   * index 0, its earlier meetings shift by one, its other fields stay, and
   * no other element of the stack changes.
   */
  lemma SavePrependsMeeting(
    s: State, sender: ElementId, transcript: string, freshId: ElementId, uuid: Uuid, now: Date)
    requires ValidState(s)
    requires |s.path| >= 2 && DetailAt(s.path, s.path[|s.path| - 2].id).Some?
    ensures var below := s.path[|s.path| - 2].id;
      var st := DetailAt(s.path, below).value;
      var r := Reduce(s, Path(Element(sender, RecordAct(RecordDelegate(Save(transcript))))), freshId, uuid, now);
      && r.failure == None
      && |r.state.path| == |s.path|
      && (forall j :: 0 <= j < |s.path| && j != |s.path| - 2 ==> r.state.path[j] == s.path[j])
      && DetailAt(r.state.path, below).Some?
      && var st' := DetailAt(r.state.path, below).value;
      && st'.id == st.id && st'.title == st.title
      && |st'.meetings| == |st.meetings| + 1
      && st'.meetings[0] == Meeting(uuid, now, transcript)
      && st'.meetings[1..] == st.meetings
  {
    var below := s.path[|s.path| - 2].id;
    var st := DetailAt(s.path, below).value;
    var path := InsertMeeting(s.path, below, Meeting(uuid, now, transcript));
    assert DetailAt(path, below) == Some(st.(meetings := [Meeting(uuid, now, transcript)] + st.meetings));
    forall j | 0 <= j < |s.path| && j != |s.path| - 2 ensures path[j] == s.path[j] {
      assert s.path[j].id != below;
    }
  }

  /**
   * After a successful `save`, the list's entry for the standup equals the
   * updated snapshot on the stack, the other standups are unchanged, and the
   * list keeps unique ids.
   */
  lemma SaveSynchronizesList(
    s: State, sender: ElementId, transcript: string, freshId: ElementId, uuid: Uuid, now: Date)
    requires ValidState(s)
    requires |s.path| >= 2 && DetailAt(s.path, s.path[|s.path| - 2].id).Some?
    ensures var below := s.path[|s.path| - 2].id;
      var st := DetailAt(s.path, below).value;
      var r := Reduce(s, Path(Element(sender, RecordAct(RecordDelegate(Save(transcript))))), freshId, uuid, now);
      && DetailAt(r.state.path, below).Some?
      && Lookup(r.state.standups, st.id) == DetailAt(r.state.path, below)
      && (forall k :: k != st.id ==> Lookup(r.state.standups, k) == Lookup(s.standups, k))
      && ValidState(r.state)
  {
  }

  /** `save` with something other than a detail screen beneath the top changes nothing. */
  lemma SaveOverNonDetailIsIgnored(
    s: State, sender: ElementId, transcript: string, freshId: ElementId, uuid: Uuid, now: Date)
    requires ValidState(s)
    requires |s.path| >= 2 && DetailAt(s.path, s.path[|s.path| - 2].id).None?
    ensures Reduce(s, Path(Element(sender, RecordAct(RecordDelegate(Save(transcript))))), freshId, uuid, now)
      == Outcome(s, None)
  {
  }

  /** Every action other than a delegate action leaves the state alone at this level. */
  lemma NonDelegateActionsAreIgnored(s: State, action: Action, freshId: ElementId, uuid: Uuid, now: Date)
    requires ValidState(s)
    requires !IsDelegate(action)
    ensures Reduce(s, action, freshId, uuid, now) == Outcome(s, None)
  {
  }

  /**
   * Keys on the stack and ids in the list stay unique through every step,
   * provided the key handed to an appended element is not already in use.
   */
  lemma ReducePreservesValidity(s: State, action: Action, freshId: ElementId, uuid: Uuid, now: Date)
    requires ValidState(s)
    requires freshId !in Keys(s.path)
    ensures ValidState(Reduce(s, action, freshId, uuid, now).state)
  {
  }

  /**
   * The list `[a]` with a detail screen and a record screen for `a` on the
   * stack: saving "hello" gives the list `[a']`, where `a'` is `a` with the
   * new meeting first, and the detail screen shows `a'` too.
   */
  lemma SaveScenario(a: Standup, uuid: Uuid, now: Date)
    ensures var s := State([Entry(0, Detail(a)), Entry(1, Record(a))], [a]);
      var a' := a.(meetings := [Meeting(uuid, now, "hello")] + a.meetings);
      Reduce(s, Path(Element(1, RecordAct(RecordDelegate(Save("hello"))))), 2, uuid, now)
        == Outcome(State([Entry(0, Detail(a')), Entry(1, Record(a))], [a']), None)
  {
  }
}
