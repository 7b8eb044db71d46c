/** The diary screen's submission step, first as a pure transition on the
    whole screen state, then as the object that performs it in place. */
module Screen {
  import opened Trimming
  import opened Models
  import opened DisplayOrder

  /** Everything the screen's logic can observe: the stored entries, the two
      reward counters and the text currently in the editor. */
  datatype State = State(entries: seq<DiaryEntry>, points: int, streak: int, input: string)

  /** The state at launch: both models fresh, an empty editor. It already
      satisfies the invariant every session keeps. */
  function Initial(): (s: State)
    ensures Consistent(s) && s.points == 0 && |s.entries| == 0 && s.input == ""
  {
    State([], 0, 0, "")
  }

  /** Pressing "Add Entry" at time `now`: text that trims to nothing (that
      is, blank text, by `TrimEmptyIffAllIn`) is ignored; otherwise the raw, untrimmed
      text is stored with date `now`, 10 points and one streak step are
      awarded, and the editor is cleared. */
  function Submit(s: State, now: int): (r: State)
    ensures |r.entries| == |s.entries| + (if IsBlank(s.input) then 0 else 1)
    ensures r.entries[..|s.entries|] == s.entries
    ensures !IsBlank(s.input) ==> r.entries[|s.entries|] == DiaryEntry(now, s.input)
    ensures r.points == s.points + 10 * (|r.entries| - |s.entries|)
    ensures r.streak == s.streak + (|r.entries| - |s.entries|)
    ensures IsBlank(s.input) ==> r == s
    ensures !IsBlank(s.input) ==> r.input == ""
  {
    if IsBlank(s.input) then s
    else State(s.entries + [DiaryEntry(now, s.input)], s.points + 10, s.streak + 1, "")
  }

  /** What the user can do on the screen: edit the text, or press the button. */
  datatype Event = Edit(text: string) | Press(now: int)

  /** Editing touches only the text; neither action lowers a counter or
      drops an entry, and both keep the invariant. */
  function Apply(s: State, e: Event): (r: State)
    ensures e.Edit? ==> r == s.(input := e.text)
    ensures r.points >= s.points && r.streak >= s.streak
    ensures |r.entries| >= |s.entries| && r.entries[..|s.entries|] == s.entries
    ensures Consistent(s) ==> Consistent(r)
  {
    match e
    case Edit(text) => s.(input := text)
    case Press(now) => Submit(s, now)
  }

  /** The state after a session of events, in order: from any state the
      counters never go down and the stored entries are only extended. */
  function Run(s: State, events: seq<Event>): (r: State)
    ensures r.points >= s.points && r.streak >= s.streak
    ensures |r.entries| >= |s.entries| && r.entries[..|s.entries|] == s.entries
    decreases |events|
  {
    if events == [] then s else Run(Apply(s, events[0]), events[1..])
  }

  /** The relation between the stores that every session from launch keeps:
      each stored entry was accepted (non-blank text), each accepted entry
      advanced the streak by one and earned 10 points. */
  predicate Consistent(s: State) {
    && s.streak == |s.entries|
    && s.points == 10 * s.streak
    && forall i :: 0 <= i < |s.entries| ==> !IsBlank(s.entries[i].text)
  }

  /** One press keeps the stores consistent, and never decreases a counter. */
  lemma SubmitKeepsConsistent(s: State, now: int)
    requires Consistent(s)
    ensures Consistent(Submit(s, now))
    ensures Submit(s, now).points >= s.points && Submit(s, now).streak >= s.streak
    ensures |Submit(s, now).entries| >= |s.entries|
  {
  }

  /** Any session from a consistent state stays consistent; the counters and
      the entry list only grow, and the earlier entries stay as they were. */
  lemma {:induction false} RunKeepsConsistent(s: State, events: seq<Event>)
    requires Consistent(s)
    ensures Consistent(Run(s, events))
    ensures Run(s, events).points >= s.points && Run(s, events).streak >= s.streak
    ensures |Run(s, events).entries| >= |s.entries|
    ensures Run(s, events).entries[..|s.entries|] == s.entries
    decreases |events|
  {
    if events != [] {
      var next := Apply(s, events[0]);
      if events[0].Press? {
        SubmitKeepsConsistent(s, events[0].now);
      }
      assert Consistent(next) && next.entries[..|s.entries|] == s.entries;
      RunKeepsConsistent(next, events[1..]);
    }
  }

  /** Every session from launch ends with points == 10 * streak == 10 * |entries|. */
  lemma FromLaunch(events: seq<Event>)
    ensures var s := Run(Initial(), events);
            s.points == 10 * s.streak && s.streak == |s.entries| && s.points >= 0
  {
    RunKeepsConsistent(Initial(), events);
  }

  /** The events of typing each text in turn and pressing the button at its time. */
  function Typed(subs: seq<(string, int)>): (events: seq<Event>)
    ensures |events| == 2 * |subs|
  {
    if subs == [] then [] else [Edit(subs[0].0), Press(subs[0].1)] + Typed(subs[1..])
  }

  /** The entries those submissions create, when every text is accepted. */
  function EntriesOf(subs: seq<(string, int)>): (r: seq<DiaryEntry>)
    ensures |r| == |subs|
    ensures forall i :: 0 <= i < |subs| ==> r[i] == DiaryEntry(subs[i].1, subs[i].0)
  {
    if subs == [] then [] else [DiaryEntry(subs[0].1, subs[0].0)] + EntriesOf(subs[1..])
  }

  /** Replaying the first typed submission. */
  lemma RunTypedHead(s: State, subs: seq<(string, int)>)
    requires subs != []
    ensures Run(s, Typed(subs)) == Run(Submit(s.(input := subs[0].0), subs[0].1), Typed(subs[1..]))
  {
    var events := Typed(subs);
    assert events[0] == Edit(subs[0].0);
    assert events[1..][0] == Press(subs[0].1);
    assert events[1..][1..] == Typed(subs[1..]);
  }

  /** No text of `subs` is blank. */
  predicate AllAccepted(subs: seq<(string, int)>) {
    forall i :: 0 <= i < |subs| ==> !IsBlank(subs[i].0)
  }

  lemma AllAcceptedTail(subs: seq<(string, int)>)
    requires subs != [] && AllAccepted(subs)
    ensures !IsBlank(subs[0].0) && AllAccepted(subs[1..])
  {
    forall i | 0 <= i < |subs| - 1 ensures !IsBlank(subs[1..][i].0) {
      assert subs[1..][i] == subs[i + 1];
    }
  }

  lemma SeqAppendAssoc<T>(a: seq<T>, b: seq<T>, c: seq<T>)
    ensures (a + b) + c == a + (b + c)
  {
  }

  /** Typing and submitting non-blank texts appends one entry per text, in
      order and verbatim, and awards 10 points and one streak step each. */
  lemma {:induction false} TypedAllAccepted(s: State, subs: seq<(string, int)>)
    requires AllAccepted(subs)
    ensures var r := Run(s, Typed(subs));
            && r.entries == s.entries + EntriesOf(subs)
            && r.points == s.points + 10 * |subs|
            && r.streak == s.streak + |subs|
            && r.input == (if subs == [] then s.input else "")
    decreases |subs|
  {
    if subs != [] {
      var text, now, rest := subs[0].0, subs[0].1, subs[1..];
      var next := Submit(s.(input := text), now);
      AllAcceptedTail(subs);
      assert next == State(s.entries + [DiaryEntry(now, text)], s.points + 10, s.streak + 1, "");
      RunTypedHead(s, subs);
      TypedAllAccepted(next, rest);
      var r := Run(next, Typed(rest));
      calc {
        r.entries;
        (s.entries + [DiaryEntry(now, text)]) + EntriesOf(rest);
        { SeqAppendAssoc(s.entries, [DiaryEntry(now, text)], EntriesOf(rest)); }
        s.entries + ([DiaryEntry(now, text)] + EntriesOf(rest));
        s.entries + EntriesOf(subs);
      }
    }
  }

  /** A hundred accepted submissions from launch: 1000 points, a streak of
      100 and 100 stored entries. */
  lemma HundredFromLaunch(subs: seq<(string, int)>)
    requires |subs| == 100 && AllAccepted(subs)
    ensures var r := Run(Initial(), Typed(subs));
            r.points == 1000 && r.streak == 100 && |r.entries| == 100
  {
    TypedAllAccepted(Initial(), subs);
  }

  /** The screen as an object: the two shared models it was handed and the
      text bound to its editor. */
  class ContentView {
    const diaryModel: DiaryModel
    const rewardsModel: RewardsModel
    var newEntryText: string

    constructor (diaryModel: DiaryModel, rewardsModel: RewardsModel)
      ensures this.diaryModel == diaryModel && this.rewardsModel == rewardsModel
      ensures newEntryText == ""
    {
      this.diaryModel := diaryModel;
      this.rewardsModel := rewardsModel;
      newEntryText := "";
    }

    /** The state this view observes. */
    ghost function Observed(): State
      reads this, diaryModel, rewardsModel
    {
      State(diaryModel.entries, rewardsModel.points, rewardsModel.streak, newEntryText)
    }

    /** The list the screen shows: the stored entries, newest first. It is
        computed on read, so showing it changes nothing. */
    function Shown(): (r: seq<DiaryEntry>)
      reads diaryModel
      ensures multiset(r) == multiset(diaryModel.entries)
      ensures IsSortedDesc(r)
    {
      SortedDesc(diaryModel.entries)
    }

    /** The "Add Entry" button: guard on the trimmed text, then build the
        entry from the raw text, store it, award points and clear the editor. */
    method AddEntry(now: int)
      modifies this, diaryModel, rewardsModel
      ensures Observed() == Submit(old(Observed()), now)
      ensures IsBlank(old(newEntryText)) ==>
                && diaryModel.entries == old(diaryModel.entries)
                && rewardsModel.points == old(rewardsModel.points)
                && rewardsModel.streak == old(rewardsModel.streak)
                && newEntryText == old(newEntryText)
      ensures !IsBlank(old(newEntryText)) ==>
                && diaryModel.entries == old(diaryModel.entries) + [DiaryEntry(now, old(newEntryText))]
                && rewardsModel.points == old(rewardsModel.points) + 10
                && rewardsModel.streak == old(rewardsModel.streak) + 1
                && newEntryText == ""
      ensures Consistent(old(Observed())) ==> Consistent(Observed())
    {
      ghost var before := Observed();
      var empty := TrimsToEmpty(newEntryText);
      if empty {
        return;
      }
      var entry := DiaryEntry(now, newEntryText);
      diaryModel.AddEntry(entry);
      rewardsModel.AddPoints(entry);
      newEntryText := "";
      if Consistent(before) {
        SubmitKeepsConsistent(before, now);
      }
    }
  }

  /** Submitting "A" and then "B" at a later time, from launch: the screen
      lists B before A and shows 20 points over a streak of 2. */
  method TwoEntries(a: string, b: string, t1: int, t2: int)
    returns (shown: seq<DiaryEntry>, points: int, streak: int)
    requires !IsBlank(a) && !IsBlank(b) && t1 < t2
    ensures shown == [DiaryEntry(t2, b), DiaryEntry(t1, a)]
    ensures points == 20 && streak == 2
  {
    var diary := new DiaryModel();
    var rewards := new RewardsModel();
    var view := new ContentView(diary, rewards);
    view.newEntryText := a;
    view.AddEntry(t1);
    assert diary.entries == [DiaryEntry(t1, a)];
    view.newEntryText := b;
    view.AddEntry(t2);
    assert diary.entries == [DiaryEntry(t1, a), DiaryEntry(t2, b)];
    SortedDescPair(DiaryEntry(t1, a), DiaryEntry(t2, b));
    shown := view.Shown();
    points, streak := rewards.points, rewards.streak;
  }

  /** Pressing the button on a blank editor at launch stores nothing and
      awards nothing, and the editor keeps its text. */
  method BlankIgnored(blank: string, now: int)
    returns (count: nat, points: int, streak: int, kept: string)
    requires IsBlank(blank)
    ensures count == 0 && points == 0 && streak == 0 && kept == blank
  {
    var diary := new DiaryModel();
    var rewards := new RewardsModel();
    var view := new ContentView(diary, rewards);
    view.newEntryText := blank;
    view.AddEntry(now);
    count, points, streak, kept := |diary.entries|, rewards.points, rewards.streak, view.newEntryText;
  }
}
