/** The two observable state holders of the diary app and the value they store. */
module Models {

  /** One diary record: when it was written (a timestamp supplied by the
      caller) and the text exactly as typed. */
  datatype DiaryEntry = DiaryEntry(date: int, text: string)

  /** The entry store: an append-only list, in insertion order. */
  class DiaryModel {
    var entries: seq<DiaryEntry>

    constructor ()
      ensures entries == []
    {
      entries := [];
    }

    /** Appends `entry` at the end; no validation, no deduplication. */
    method AddEntry(entry: DiaryEntry)
      modifies this
      ensures |entries| == |old(entries)| + 1
      ensures entries[|entries| - 1] == entry
      ensures entries[..|old(entries)|] == old(entries)
      ensures entries == old(entries) + [entry]
    {
      entries := entries + [entry];
    }
  }

  /** The reward tracker: two counters bumped once per accepted entry. */
  class RewardsModel {
    var points: int
    var streak: int

    constructor ()
      ensures points == 0 && streak == 0
    {
      points := 0;
      streak := 0;
    }

    /** Awards a fixed 10 points and one more in the streak; the entry's
        contents are ignored (and "streak" counts entries, not days). */
    method AddPoints(entry: DiaryEntry)
      modifies this
      ensures points == old(points) + 10
      ensures streak == old(streak) + 1
    {
      points := points + 10;
      streak := streak + 1;
    }
  }
}
