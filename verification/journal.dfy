/** hooks/useJournal.ts: an in-memory list of journal entries, newest
    first, seeded with three entries and grown only by addEntry. The clock
    (Date.now(), new Date()) and Math.random() are parameters. */
module Journal {
  import opened Optional

  datatype EntryType = Manual | Auto
  datatype Direction = Long | Short

  datatype Trade = Trade(symbol: string, direction: Direction, size: real, pnl: real)

  /** Emotion scores, each on a 0-10 scale. */
  datatype Emotions = Emotions(preStress: real, postStress: real, confidence: real)

  /** A journal entry; the timestamp is milliseconds since the epoch. */
  datatype JournalEntry = JournalEntry(id: string, timestamp: int, text: string,
                                       entryType: EntryType, trade: Option<Trade>,
                                       emotions: Option<Emotions>)

  /** The fields of the `Partial<JournalEntry>` that addEntry reads. */
  datatype EntryDraft = EntryDraft(text: Option<string>, entryType: Option<EntryType>,
                                   trade: Option<Trade>, emotions: Option<Emotions>)

  /** The three Math.random() results addEntry consumes when no emotions are supplied. */
  datatype EmotionDraws = EmotionDraws(preStress: real, postStress: real, confidence: real)

  const HOUR_MS := 60 * 60 * 1000

  ghost predicate DrawsValid(r: EmotionDraws)
  {
    0.0 <= r.preStress < 1.0 && 0.0 <= r.postStress < 1.0 && 0.0 <= r.confidence < 1.0
  }

  ghost predicate OnScale(e: Emotions)
  {
    0.0 <= e.preStress < 10.0 && 0.0 <= e.postStress < 10.0 && 0.0 <= e.confidence < 10.0
  }

  /** The texts of the three seeded entries. */
  const BTC_NOTE: string := "Opened BTC long position at $42,850. Market sentiment appears bullish with strong volume. Feeling confident but keeping position size moderate due to elevated morning stress levels."
  const SIZE_NOTE: string := "System automatically reduced position size from 75% to 45% due to elevated stress response. Heart rate spike detected during market volatility."
  const ETH_NOTE: string := "Closed ETH short position with decent profit. Sleep quality was poor last night (5.2/10) which affected decision-making speed. Need to prioritize better sleep schedule."

  /** The list the hook starts with. Each entry reads the clock on its own:
      now1, now2 and now3 are the three Date.now() results, in order. */
  function SeedEntries(now1: int, now2: int, now3: int): (s: seq<JournalEntry>)
    ensures |s| == 3
    ensures s[0].id == "1" && s[1].id == "2" && s[2].id == "3"
    ensures s[0].timestamp == now1 - 2 * HOUR_MS
    ensures s[1].timestamp == now2 - 4 * HOUR_MS
    ensures s[2].timestamp == now3 - 6 * HOUR_MS
  {
    [ JournalEntry("1", now1 - 2 * HOUR_MS,
        BTC_NOTE,
        Manual, Some(Trade("BTC/USD", Long, 0.5, 1245.0)), Some(Emotions(6.2, 4.8, 7.5))),
      JournalEntry("2", now2 - 4 * HOUR_MS,
        SIZE_NOTE,
        Auto, None, Some(Emotions(4.1, 7.8, 5.2))),
      JournalEntry("3", now3 - 6 * HOUR_MS,
        ETH_NOTE,
        Manual, Some(Trade("ETH/USD", Short, 2.1, 830.0)), Some(Emotions(5.5, 3.9, 6.8))) ]
  }

  /** The seed is newest first, each entry older than the instant its clock
      was read, provided the clock does not step back between the three
      reads and they span less than two hours. */
  lemma SeedNewestFirst(now1: int, now2: int, now3: int)
    requires now1 <= now2 <= now3 < now1 + 2 * HOUR_MS
    ensures var s := SeedEntries(now1, now2, now3);
      now1 > s[0].timestamp > s[1].timestamp > s[2].timestamp
  {
  }

  /** Clock reads more than two hours apart break the order: here the
      second entry ends up newer than the first. */
  lemma SeedOrderNeedsCloseReads()
    ensures var s := SeedEntries(0, 3 * HOUR_MS, 3 * HOUR_MS);
      s[1].timestamp > s[0].timestamp
  {
  }

  /** Every seeded entry carries emotion scores on the 0-10 scale. */
  lemma SeedEmotionsOnScale(now1: int, now2: int, now3: int)
    ensures forall i :: 0 <= i < |SeedEntries(now1, now2, now3)| ==>
      SeedEntries(now1, now2, now3)[i].emotions.Some? &&
      OnScale(SeedEntries(now1, now2, now3)[i].emotions.value)
  {
  }

  /** The entry addEntry builds from a draft, an id and timestamp taken from
      the clock, and three random draws for the default emotions. */
  function NewEntry(draft: EntryDraft, id: string, timestamp: int, draws: EmotionDraws): (e: JournalEntry)
    ensures e.id == id && e.timestamp == timestamp
    ensures e.emotions.Some?
    ensures draft.emotions.None? && DrawsValid(draws) ==> OnScale(e.emotions.value)
  {
    JournalEntry(id, timestamp,
                 // `entryData.text || ''`: a supplied '' is falsy and also gives ''
                 draft.text.GetOr(""),
                 draft.entryType.GetOr(Manual),
                 draft.trade,
                 Some(draft.emotions.GetOr(Emotions(draws.preStress * 10.0,
                                                    draws.postStress * 10.0,
                                                    draws.confidence * 10.0))))
  }

  /** The defaults addEntry fills in, and what it copies through unchanged. */
  lemma NewEntryDefaults(draft: EntryDraft, id: string, timestamp: int, draws: EmotionDraws)
    ensures draft.text.None? ==> NewEntry(draft, id, timestamp, draws).text == ""
    ensures draft.text.Some? ==> NewEntry(draft, id, timestamp, draws).text == draft.text.value
    ensures draft.entryType.None? ==> NewEntry(draft, id, timestamp, draws).entryType == Manual
    ensures draft.entryType.Some? ==> NewEntry(draft, id, timestamp, draws).entryType == draft.entryType.value
    ensures NewEntry(draft, id, timestamp, draws).trade == draft.trade
    ensures draft.emotions.Some? ==> NewEntry(draft, id, timestamp, draws).emotions == draft.emotions
  {
  }

  /** The entries added so far, most recent first. */
  function NewestFirst(added: seq<JournalEntry>): (s: seq<JournalEntry>)
    decreases |added|
  {
    if added == [] then [] else NewestFirst(added[1..]) + [added[0]]
  }

  /** Adding one more entry puts it in front of the others. */
  lemma {:induction false} NewestFirstSnoc(added: seq<JournalEntry>, e: JournalEntry)
    ensures NewestFirst(added + [e]) == [e] + NewestFirst(added)
    decreases |added|
  {
    if added == [] {
      assert added + [e] == [e];
    } else {
      assert (added + [e])[0] == added[0];
      assert (added + [e])[1..] == added[1..] + [e];
      NewestFirstSnoc(added[1..], e);
    }
  }

  /** NewestFirst holds every added entry once, in reverse order of addition. */
  lemma {:induction false} NewestFirstAt(added: seq<JournalEntry>, i: nat)
    requires i < |added|
    ensures |NewestFirst(added)| == |added|
    ensures NewestFirst(added)[i] == added[|added| - 1 - i]
    decreases |added|
  {
    if i < |added| - 1 {
      NewestFirstAt(added[1..], i);
    } else if |added| > 1 {
      NewestFirstAt(added[1..], 0);
    }
  }

  /** The hook's `entries` state cell. `added` records what addEntry has
      prepended, oldest first; `seed` is the initial list. */
  class JournalStore {
    var entries: seq<JournalEntry>
    ghost var seed: seq<JournalEntry>
    ghost var added: seq<JournalEntry>

    ghost predicate Valid()
      reads this
    {
      entries == NewestFirst(added) + seed
    }

    constructor (now1: int, now2: int, now3: int)
      ensures Valid()
      ensures entries == SeedEntries(now1, now2, now3) && seed == entries && added == []
    {
      entries := SeedEntries(now1, now2, now3);
      seed := entries;
      added := [];
    }

    /** addEntry: build the entry and prepend it; the older entries follow
        unchanged and in their order. */
    method AddEntry(draft: EntryDraft, id: string, timestamp: int, draws: EmotionDraws)
      requires Valid()
      modifies this
      ensures Valid()
      ensures entries == [NewEntry(draft, id, timestamp, draws)] + old(entries)
      ensures |entries| == |old(entries)| + 1
      ensures entries[0] == NewEntry(draft, id, timestamp, draws) && entries[1..] == old(entries)
      ensures seed == old(seed) && added == old(added) + [NewEntry(draft, id, timestamp, draws)]
    {
      var e := NewEntry(draft, id, timestamp, draws);
      NewestFirstSnoc(added, e);
      entries := [e] + entries;
      added := added + [e];
    }

    /** The current list: the added entries, newest first, then the seed,
        which no operation removes or edits. */
    method Entries() returns (s: seq<JournalEntry>)
      requires Valid()
      ensures s == entries
      ensures |s| == |added| + |seed|
      ensures s[|added|..] == seed
      ensures forall i :: 0 <= i < |added| ==> s[i] == added[|added| - 1 - i]
    {
      if added != [] {
        NewestFirstAt(added, 0);
      }
      forall i | 0 <= i < |added|
        ensures entries[i] == added[|added| - 1 - i]
      {
        NewestFirstAt(added, i);
      }
      s := entries;
    }
  }
}
