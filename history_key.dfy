/** The key under which both history stores file a record: the bet id and the
    jackpot id joined by an underscore. */
module HistoryKey {

  function GenerateKey(betId: string, jackpotId: string): (key: string)
    ensures |key| == |betId| + 1 + |jackpotId|
    ensures key[..|betId|] == betId && key[|betId|] == '_' && key[|betId| + 1..] == jackpotId
  {
    betId + "_" + jackpotId
  }

  /** The key is not unique in general: an underscore inside an id lets two
      different (bet, jackpot) pairs share a key. */
  lemma KeyCollision()
    ensures GenerateKey("a_b", "c") == GenerateKey("a", "b_c")
  {
    assert GenerateKey("a_b", "c") == "a_b_c";
    assert GenerateKey("a", "b_c") == "a_b_c";
  }

  /** When jackpot ids contain no underscore, the key determines the pair: the last
      underscore of the key separates the two ids. */
  lemma KeyInjective(b1: string, j1: string, b2: string, j2: string)
    ensures '_' !in j1 && '_' !in j2 && GenerateKey(b1, j1) == GenerateKey(b2, j2) ==>
              b1 == b2 && j1 == j2
  {
    var k := GenerateKey(b1, j1);
    if '_' !in j1 && '_' !in j2 && k == GenerateKey(b2, j2) {
      if |j1| < |j2| {
        UnderscoreInsideJackpotId(k, b1, b2, j2);
      } else if |j2| < |j1| {
        UnderscoreInsideJackpotId(k, b2, b1, j1);
      }
      assert |b1| == |b2|;
      assert b1 == k[..|b1|];
      assert j1 == k[|b1| + 1..];
    }
  }

  /** A separator that a shorter jackpot id puts further right would have to lie
      inside the longer jackpot id. */
  lemma UnderscoreInsideJackpotId(k: string, bShort: string, bLong: string, jLong: string)
    requires k == GenerateKey(bLong, jLong)
    requires |bShort| < |k| && k[|bShort|] == '_'
    requires |bShort| > |bLong|
    ensures '_' in jLong
  {
    assert jLong[|bShort| - |bLong| - 1] == k[|bShort|];
  }
}
