/** The persisted progression: the save document, a JSON object of integers that every
    screen reads and some write (filemanager.py), modelled as a map held by one object. */
module Progress {

  const CoinsKey := "Coins"
  const HighScoreKey := "High Score"
  const TwoXKey := "2x Coins"
  const FourXKey := "4x Coins"
  const DeadZoneKey := "Dead Zone"
  const ExtraLifeKey := "Extra Life"

  /** The keys the game reads; reading a missing one fails in the source. */
  const Keys: set<string> := {CoinsKey, HighScoreKey, TwoXKey, FourXKey, DeadZoneKey, ExtraLifeKey}

  /** What a Play session writes back: its coins, its four power-up counters, the high score
      it read when it started, and its score. */
  datatype Session = Session(
    coins: int, twoX: int, fourX: int, deadZone: int, extraLives: int,
    highScore: int, score: int)

  /** The document after a session is saved (ScreenManager.saveAll, and the same writes when
      the player dies): the session's coins are added to the stored total, the four counters
      are overwritten, and the high score is rewritten only when the session's score beats
      the high score the session started with. */
  function Saved(doc: map<string, int>, s: Session): (r: map<string, int>)
    requires CoinsKey in doc
    ensures r.Keys == doc.Keys + {CoinsKey, TwoXKey, FourXKey, DeadZoneKey, ExtraLifeKey}
              + (if s.highScore < s.score then {HighScoreKey} else {})
    ensures r[CoinsKey] == doc[CoinsKey] + s.coins
    ensures r[TwoXKey] == s.twoX && r[FourXKey] == s.fourX
    ensures r[DeadZoneKey] == s.deadZone && r[ExtraLifeKey] == s.extraLives
    ensures HighScoreKey in doc ==> r[HighScoreKey] == if s.highScore < s.score then s.score else doc[HighScoreKey]
    ensures forall k :: k in doc && k !in Keys ==> r[k] == doc[k]
  {
    var d := doc[CoinsKey := doc[CoinsKey] + s.coins][TwoXKey := s.twoX][FourXKey := s.fourX]
               [DeadZoneKey := s.deadZone][ExtraLifeKey := s.extraLives];
    if s.highScore < s.score then d[HighScoreKey := s.score] else d
  }

  /** When the session started from the stored high score, the stored high score afterwards
      is the larger of it and the session's score: it never goes down. */
  lemma SavedHighScoreIsMax(doc: map<string, int>, s: Session)
    requires CoinsKey in doc && HighScoreKey in doc && doc[HighScoreKey] == s.highScore
    ensures Saved(doc, s)[HighScoreKey] == if s.score > doc[HighScoreKey] then s.score else doc[HighScoreKey]
    ensures Saved(doc, s)[HighScoreKey] >= doc[HighScoreKey]
  {
  }

  /** The save file.  FileManager reads the whole file on every call; one object holding the
      document stands for it. */
  class SaveFile {
    var doc: map<string, int>

    ghost predicate Valid()
      reads this
    {
      Keys <= doc.Keys
    }

    constructor (doc: map<string, int>)
      requires Keys <= doc.Keys
      ensures this.doc == doc && Valid()
    {
      this.doc := doc;
    }

    /** FileManager.readOption */
    method Read(key: string) returns (v: int)
      requires key in doc
      ensures v == doc[key]
    {
      v := doc[key];
    }

    /** FileManager.edit: one key changes, every other key keeps its value. */
    method Edit(key: string, value: int)
      modifies this
      ensures doc == old(doc)[key := value]
      ensures old(Valid()) ==> Valid()
    {
      doc := doc[key := value];
    }

    /** The writes of a saved session, in the source's order. */
    method Save(s: Session)
      requires Valid()
      modifies this
      ensures doc == Saved(old(doc), s) && Valid()
    {
      var stored := Read(CoinsKey);
      Edit(CoinsKey, stored + s.coins);
      Edit(TwoXKey, s.twoX);
      Edit(FourXKey, s.fourX);
      Edit(DeadZoneKey, s.deadZone);
      Edit(ExtraLifeKey, s.extraLives);
      if s.highScore < s.score {
        Edit(HighScoreKey, s.score);
      }
    }
  }
}
