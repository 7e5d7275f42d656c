/**
 * The built-in word catalogue: five levels of picture words, each with an
 * image address and its phonics segments, and the lookups over them.
 */
module Words {
  import opened Tables

  /** A catalogue entry. `phonics` is optional in the entry type, though every entry has it. */
  datatype WordData = WordData(id: int, word: string, level: int, imageUrl: string, phonics: Option<seq<string>>)

  const Level1Words: seq<WordData> := [
    WordData(1, "CAT", 1, "https://images.unsplash.com/photo-1514888286974-6c03e2ca1dba", Some(["C", "A", "T"])),
    WordData(2, "DOG", 1, "https://images.unsplash.com/photo-1552053831-71594a27632d", Some(["D", "O", "G"])),
    WordData(3, "SUN", 1, "https://images.unsplash.com/photo-1506905925346-21bda4d32df4", Some(["S", "U", "N"])),
    WordData(4, "BAT", 1, "https://images.unsplash.com/photo-1578662996442-48f60103fc96", Some(["B", "A", "T"])),
    WordData(5, "HAT", 1, "https://images.unsplash.com/photo-1520639888713-7851133b1ed0", Some(["H", "A", "T"])),
    WordData(6, "CAN", 1, "https://images.unsplash.com/photo-1571115764595-644a1f56a55c", Some(["C", "A", "N"])),
    WordData(7, "RUN", 1, "https://images.unsplash.com/photo-1571019613454-1cb2f99b2d8b", Some(["R", "U", "N"])),
    WordData(8, "FUN", 1, "https://images.unsplash.com/photo-1503454537195-1dcabb73ffb9", Some(["F", "U", "N"])),
    WordData(9, "BUS", 1, "https://images.unsplash.com/photo-1544620347-c4fd4a3d5957", Some(["B", "U", "S"])),
    WordData(10, "CUP", 1, "https://images.unsplash.com/photo-1544966503-7cc5ac882d5f", Some(["C", "U", "P"])),
    WordData(11, "PEN", 1, "https://images.unsplash.com/photo-1586953208448-b95a79798f07", Some(["P", "E", "N"])),
    WordData(12, "BED", 1, "https://images.unsplash.com/photo-1505693416388-ac5ce068fe85", Some(["B", "E", "D"]))
  ]

  const Level2Words: seq<WordData> := [
    WordData(13, "FISH", 2, "https://images.unsplash.com/photo-1535591273668-578e31182c4f", Some(["F", "I", "SH"])),
    WordData(14, "BIRD", 2, "https://images.unsplash.com/photo-1552728089-57bdde30beb3", Some(["B", "IR", "D"])),
    WordData(15, "TREE", 2, "https://images.unsplash.com/photo-1441974231531-c6227db76b6e", Some(["TR", "EE"])),
    WordData(16, "BOOK", 2, "https://images.unsplash.com/photo-1481627834876-b7833e8f5570", Some(["B", "OO", "K"])),
    WordData(17, "BALL", 2, "https://images.unsplash.com/photo-1594736797933-d0bd1aebf67c", Some(["B", "A", "LL"])),
    WordData(18, "PLAY", 2, "https://images.unsplash.com/photo-1503454537195-1dcabb73ffb9", Some(["PL", "A", "Y"])),
    WordData(19, "JUMP", 2, "https://images.unsplash.com/photo-1571019613454-1cb2f99b2d8b", Some(["J", "U", "MP"])),
    WordData(20, "HELP", 2, "https://images.unsplash.com/photo-1559027615-cd4628902d4a", Some(["H", "E", "LP"])),
    WordData(21, "CAKE", 2, "https://images.unsplash.com/photo-1558618047-3c8c76ca7d13", Some(["C", "A", "KE"])),
    WordData(22, "DUCK", 2, "https://images.unsplash.com/photo-1551196007-2b6c0afbc0dd", Some(["D", "U", "CK"])),
    WordData(23, "FROG", 2, "https://images.unsplash.com/photo-1459262838948-3e2de6c1ec80", Some(["FR", "O", "G"])),
    WordData(24, "MILK", 2, "https://images.unsplash.com/photo-1563636619-e9143da7973b", Some(["M", "I", "LK"])),
    WordData(25, "RAIN", 2, "https://images.unsplash.com/photo-1515694346937-94d85e41e6f0", Some(["R", "AI", "N"])),
    WordData(26, "STAR", 2, "https://images.unsplash.com/photo-1419242902214-272b3f66ee7a", Some(["ST", "A", "R"])),
    WordData(27, "MOON", 2, "https://images.unsplash.com/photo-1518837695005-2083093ee35b", Some(["M", "OO", "N"]))
  ]

  const Level3Words: seq<WordData> := [
    WordData(28, "HOUSE", 3, "https://images.unsplash.com/photo-1570129477492-45c003edd2be", Some(["H", "OU", "SE"])),
    WordData(29, "APPLE", 3, "https://images.unsplash.com/photo-1568702846914-96b305d2aaeb", Some(["A", "PP", "LE"])),
    WordData(30, "SMILE", 3, "https://images.unsplash.com/photo-1529626455594-4ff0802cfb7e", Some(["SM", "I", "LE"])),
    WordData(31, "PLANE", 3, "https://images.unsplash.com/photo-1436491865332-7a61a109cc05", Some(["PL", "A", "NE"])),
    WordData(32, "TRAIN", 3, "https://images.unsplash.com/photo-1544620347-c4fd4a3d5957", Some(["TR", "AI", "N"])),
    WordData(33, "BEACH", 3, "https://images.unsplash.com/photo-1507525428034-b723cf961d3e", Some(["B", "EA", "CH"])),
    WordData(34, "CHAIR", 3, "https://images.unsplash.com/photo-1586023492125-27b2c045efd7", Some(["CH", "AI", "R"])),
    WordData(35, "FLOWER", 3, "https://images.unsplash.com/photo-1490750967868-88aa4486c946", Some(["FL", "OW", "ER"])),
    WordData(36, "BREAD", 3, "https://images.unsplash.com/photo-1549931319-a545dcf3bc73", Some(["BR", "EA", "D"])),
    WordData(37, "TIGER", 3, "https://images.unsplash.com/photo-1561731216-c3a4d99437d5", Some(["T", "I", "GER"])),
    WordData(38, "SNAKE", 3, "https://images.unsplash.com/photo-1516598540642-e8f40a09d939", Some(["SN", "A", "KE"])),
    WordData(39, "CLOCK", 3, "https://images.unsplash.com/photo-1501139083538-0139583c060f", Some(["CL", "O", "CK"]))
  ]

  const Level4Words: seq<WordData> := [
    WordData(40, "DRAGON", 4, "https://images.unsplash.com/photo-1578662996442-48f60103fc96", Some(["DR", "A", "GON"])),
    WordData(41, "CASTLE", 4, "https://images.unsplash.com/photo-1520637836862-4d197d17c43a", Some(["C", "AS", "TLE"])),
    WordData(42, "PRINCE", 4, "https://images.unsplash.com/photo-1507003211169-0a1dd7228f2d", Some(["PR", "IN", "CE"])),
    WordData(43, "BRIDGE", 4, "https://images.unsplash.com/photo-1477959858617-67f85cf4f1df", Some(["BR", "I", "DGE"])),
    WordData(44, "MONKEY", 4, "https://images.unsplash.com/photo-1535713875002-d1d0cf377fde", Some(["M", "ON", "KEY"])),
    WordData(45, "TURTLE", 4, "https://images.unsplash.com/photo-1437622368342-7a3d73a34c8f", Some(["T", "UR", "TLE"])),
    WordData(46, "GARDEN", 4, "https://images.unsplash.com/photo-1416879595882-3373a0480b5b", Some(["G", "AR", "DEN"])),
    WordData(47, "PURPLE", 4, "https://images.unsplash.com/photo-1553982012-39a2abef9cde", Some(["P", "UR", "PLE"])),
    WordData(48, "ORANGE", 4, "https://images.unsplash.com/photo-1557800636-894a64c1696f", Some(["OR", "AN", "GE"])),
    WordData(49, "YELLOW", 4, "https://images.unsplash.com/photo-1562085180-7fd3d38f8b73", Some(["Y", "EL", "LOW"])),
    WordData(50, "ROCKET", 4, "https://images.unsplash.com/photo-1516849841032-87cbac4d88f7", Some(["R", "O", "CKET"])),
    WordData(51, "PLANET", 4, "https://images.unsplash.com/photo-1446776877081-d282a0f896e2", Some(["PL", "A", "NET"]))
  ]

  const Level5Words: seq<WordData> := [
    WordData(52, "ELEPHANT", 5, "https://images.unsplash.com/photo-1564349683136-77e08dba1ef7", Some(["EL", "E", "PHANT"])),
    WordData(53, "GIRAFFE", 5, "https://images.unsplash.com/photo-1547036967-23d11aacaee0", Some(["G", "I", "RAFFE"])),
    WordData(54, "RAINBOW", 5, "https://images.unsplash.com/photo-1419242902214-272b3f66ee7a", Some(["R", "AIN", "BOW"])),
    WordData(55, "BIRTHDAY", 5, "https://images.unsplash.com/photo-1464349095431-e9a21285b5f3", Some(["B", "IRTH", "DAY"])),
    WordData(56, "COMPUTER", 5, "https://images.unsplash.com/photo-1547082299-de196ea013d6", Some(["COM", "PU", "TER"])),
    WordData(57, "SANDWICH", 5, "https://images.unsplash.com/photo-1553909489-cd47e0ef937f", Some(["S", "AND", "WICH"])),
    WordData(58, "FOOTBALL", 5, "https://images.unsplash.com/photo-1578662996442-48f60103fc96", Some(["F", "OOT", "BALL"])),
    WordData(59, "BACKPACK", 5, "https://images.unsplash.com/photo-1553062407-98eeb64c6a62", Some(["B", "ACK", "PACK"])),
    WordData(60, "SUNSHINE", 5, "https://images.unsplash.com/photo-1506905925346-21bda4d32df4", Some(["S", "UN", "SHINE"])),
    WordData(61, "BUTTERFLY", 5, "https://images.unsplash.com/photo-1444927714506-8492d94b5ba0", Some(["B", "UT", "TER", "FLY"])),
    WordData(62, "TREASURE", 5, "https://images.unsplash.com/photo-1519452575417-564c1401ecc0", Some(["TR", "EA", "SURE"])),
    WordData(63, "PRINCESS", 5, "https://images.unsplash.com/photo-1529626455594-4ff0802cfb7e", Some(["PRIN", "CESS"]))
  ]

  /** `getWordsByLevel`: the list of levels 1 to 5, and nothing for any other level. */
  function WordsByLevel(level: int): (r: seq<WordData>)
    ensures !(1 <= level <= 5) ==> r == []
    ensures forall w :: w in r ==> w.level == level
  {
    LevelsTagged();
    match level
    case 1 => Level1Words
    case 2 => Level2Words
    case 3 => Level3Words
    case 4 => Level4Words
    case 5 => Level5Words
    case _ => []
  }

  /** Every entry of a level list carries that level. */
  lemma LevelsTagged()
    ensures forall w :: w in Level1Words ==> w.level == 1
    ensures forall w :: w in Level2Words ==> w.level == 2
    ensures forall w :: w in Level3Words ==> w.level == 3
    ensures forall w :: w in Level4Words ==> w.level == 4
    ensures forall w :: w in Level5Words ==> w.level == 5
  {
    Level1Tagged();
    Level2Tagged();
    Level3Tagged();
    Level4Tagged();
    Level5Tagged();
  }

  // Proof helpers for `LevelsTagged`: one list per lemma keeps each proof small.
  lemma Level1Tagged() ensures forall w :: w in Level1Words ==> w.level == 1 {}
  lemma Level2Tagged() ensures forall w :: w in Level2Words ==> w.level == 2 {}
  lemma Level3Tagged() ensures forall w :: w in Level3Words ==> w.level == 3 {}
  lemma Level4Tagged() ensures forall w :: w in Level4Words ==> w.level == 4 {}
  lemma Level5Tagged() ensures forall w :: w in Level5Words ==> w.level == 5 {}

  /** `getAllWords`: levels 1 to 5 in order. */
  function AllWords(): (r: seq<WordData>)
    ensures |r| == 63
    ensures r == WordsByLevel(1) + WordsByLevel(2) + WordsByLevel(3) + WordsByLevel(4) + WordsByLevel(5)
  {
    Level1Words + Level2Words + Level3Words + Level4Words + Level5Words
  }

  /** Every word of the catalogue is in the list of its own level, and only there. */
  lemma AllWordsByLevel(w: WordData)
    ensures w in AllWords() <==> 1 <= w.level <= 5 && w in WordsByLevel(w.level)
  {
    LevelsTagged();
  }

  /** From index `k` on, the ids of `s` are `start + k`, `start + k + 1`, ... */
  predicate IdsFrom(s: seq<WordData>, k: nat, start: int)
    decreases |s| - k
  {
    k >= |s| || (s[k].id == start + k && IdsFrom(s, k + 1, start))
  }

  lemma {:induction false} IdsFromIndex(s: seq<WordData>, k: nat, start: int)
    requires IdsFrom(s, k, start)
    ensures forall i :: k <= i < |s| ==> s[i].id == start + i
    decreases |s| - k
  {
    if k < |s| {
      IdsFromIndex(s, k + 1, start);
    }
  }

  // Proof helpers for `AllWordsIds`: the ids of each list count up from its first id.
  lemma Level1Ids() ensures IdsFrom(Level1Words, 0, 1) {}
  lemma Level2Ids() ensures IdsFrom(Level2Words, 0, 13) {}
  lemma Level3Ids() ensures IdsFrom(Level3Words, 0, 28) {}
  lemma Level4Ids() ensures IdsFrom(Level4Words, 0, 40) {}
  lemma Level5Ids() ensures IdsFrom(Level5Words, 0, 52) {}

  /** Five lists whose ids each continue where the previous list's stop number their concatenation from `start` on. */
  lemma ConcatIds(a: seq<WordData>, b: seq<WordData>, c: seq<WordData>, d: seq<WordData>, e: seq<WordData>, start: int)
    requires IdsFrom(a, 0, start) && IdsFrom(b, 0, start + |a|) && IdsFrom(c, 0, start + |a| + |b|)
    requires IdsFrom(d, 0, start + |a| + |b| + |c|) && IdsFrom(e, 0, start + |a| + |b| + |c| + |d|)
    ensures forall i :: 0 <= i < |a + b + c + d + e| ==> (a + b + c + d + e)[i].id == start + i
  {
    IdsFromIndex(a, 0, start);
    IdsFromIndex(b, 0, start + |a|);
    IdsFromIndex(c, 0, start + |a| + |b|);
    IdsFromIndex(d, 0, start + |a| + |b| + |c|);
    IdsFromIndex(e, 0, start + |a| + |b| + |c| + |d|);
  }

  lemma LevelSizes()
    ensures |Level1Words| == 12 && |Level2Words| == 15 && |Level3Words| == 12
    ensures |Level4Words| == 12 && |Level5Words| == 12
  {
  }

  /** Ids that count up by one are pairwise distinct. */
  lemma CountingIdsDistinct(s: seq<WordData>, start: int)
    requires forall i :: 0 <= i < |s| ==> s[i].id == start + i
    ensures DistinctBy(s, (w: WordData) => w.id)
  {
  }

  /** The ids of the whole catalogue run 1 to 63 in order, so no two entries share one. */
  lemma AllWordsIds()
    ensures forall i :: 0 <= i < |AllWords()| ==> AllWords()[i].id == i + 1
    ensures DistinctBy(AllWords(), (w: WordData) => w.id)
  {
    CatalogueIds();
    var all := AllWords();
    assert all == Level1Words + Level2Words + Level3Words + Level4Words + Level5Words;
    CountingIdsDistinct(all, 1);
  }

  lemma CatalogueIds()
    ensures var all := Level1Words + Level2Words + Level3Words + Level4Words + Level5Words;
      forall i :: 0 <= i < |all| ==> all[i].id == i + 1
  {
    Level1Ids();
    Level2Ids();
    Level3Ids();
    Level4Ids();
    Level5Ids();
    LevelSizes();
    ConcatIds(Level1Words, Level2Words, Level3Words, Level4Words, Level5Words, 1);
  }

  /** The segments read one after another: `phonics.join("")`. */
  function Spell(parts: seq<string>): string {
    if parts == [] then "" else parts[0] + Spell(parts[1..])
  }

  /** An entry whose phonics segments, read in order, spell its word. */
  predicate SpelledByPhonics(w: WordData) {
    w.phonics.Some? && Spell(w.phonics.value) == w.word
  }

  /** A property of every entry of each of five lists holds of every entry of their concatenation. */
  lemma AllOfConcat(a: seq<WordData>, b: seq<WordData>, c: seq<WordData>, d: seq<WordData>, e: seq<WordData>,
                    P: WordData -> bool)
    requires forall k :: 0 <= k < |a| ==> P(a[k])
    requires forall k :: 0 <= k < |b| ==> P(b[k])
    requires forall k :: 0 <= k < |c| ==> P(c[k])
    requires forall k :: 0 <= k < |d| ==> P(d[k])
    requires forall k :: 0 <= k < |e| ==> P(e[k])
    ensures forall w :: w in a + b + c + d + e ==> P(w)
  {
  }

  /** Every entry has phonics, and they spell the entry's word. */
  lemma PhonicsSpellWords()
    ensures forall w :: w in AllWords() ==> SpelledByPhonics(w)
  {
    Level1Spelled();
    Level2Spelled();
    Level3Spelled();
    Level4Spelled();
    Level5Spelled();
    AllOfConcat(Level1Words, Level2Words, Level3Words, Level4Words, Level5Words, SpelledByPhonics);
  }

  // Proof helpers for `PhonicsSpellWords`: one lemma per list, each split into
  // chunks of three entries so that no single proof unfolds a whole list.
  lemma Level1Spelled() ensures forall k :: 0 <= k < |Level1Words| ==> SpelledByPhonics(Level1Words[k]) {
    Level1Spelled0();
    Level1Spelled1();
    Level1Spelled2();
    Level1Spelled3();
  }

  lemma Level2Spelled() ensures forall k :: 0 <= k < |Level2Words| ==> SpelledByPhonics(Level2Words[k]) {
    Level2Spelled0();
    Level2Spelled1();
    Level2Spelled2();
    Level2Spelled3();
    Level2Spelled4();
  }

  lemma Level3Spelled() ensures forall k :: 0 <= k < |Level3Words| ==> SpelledByPhonics(Level3Words[k]) {
    Level3Spelled0();
    Level3Spelled1();
    Level3Spelled2();
    Level3Spelled3();
  }

  lemma Level4Spelled() ensures forall k :: 0 <= k < |Level4Words| ==> SpelledByPhonics(Level4Words[k]) {
    Level4Spelled0();
    Level4Spelled1();
    Level4Spelled2();
    Level4Spelled3();
  }

  lemma Level5Spelled() ensures forall k :: 0 <= k < |Level5Words| ==> SpelledByPhonics(Level5Words[k]) {
    Level5Spelled0();
    Level5Spelled1();
    Level5Spelled2();
    Level5Spelled3();
  }

  lemma Level1Spelled0() ensures forall k :: 0 <= k < 3 ==> SpelledByPhonics(Level1Words[k]) {
    assert SpelledByPhonics(Level1Words[0]);
    assert SpelledByPhonics(Level1Words[1]);
    assert SpelledByPhonics(Level1Words[2]);
  }

  lemma Level1Spelled1() ensures forall k :: 3 <= k < 6 ==> SpelledByPhonics(Level1Words[k]) {
    assert SpelledByPhonics(Level1Words[3]);
    assert SpelledByPhonics(Level1Words[4]);
    assert SpelledByPhonics(Level1Words[5]);
  }

  lemma Level1Spelled2() ensures forall k :: 6 <= k < 9 ==> SpelledByPhonics(Level1Words[k]) {
    assert SpelledByPhonics(Level1Words[6]);
    assert SpelledByPhonics(Level1Words[7]);
    assert SpelledByPhonics(Level1Words[8]);
  }

  lemma Level1Spelled3() ensures forall k :: 9 <= k < 12 ==> SpelledByPhonics(Level1Words[k]) {
    assert SpelledByPhonics(Level1Words[9]);
    assert SpelledByPhonics(Level1Words[10]);
    assert SpelledByPhonics(Level1Words[11]);
  }

  lemma Level2Spelled0() ensures forall k :: 0 <= k < 3 ==> SpelledByPhonics(Level2Words[k]) {
    assert SpelledByPhonics(Level2Words[0]);
    assert SpelledByPhonics(Level2Words[1]);
    assert SpelledByPhonics(Level2Words[2]);
  }

  lemma Level2Spelled1() ensures forall k :: 3 <= k < 6 ==> SpelledByPhonics(Level2Words[k]) {
    assert SpelledByPhonics(Level2Words[3]);
    assert SpelledByPhonics(Level2Words[4]);
    assert SpelledByPhonics(Level2Words[5]);
  }

  lemma Level2Spelled2() ensures forall k :: 6 <= k < 9 ==> SpelledByPhonics(Level2Words[k]) {
    assert SpelledByPhonics(Level2Words[6]);
    assert SpelledByPhonics(Level2Words[7]);
    assert SpelledByPhonics(Level2Words[8]);
  }

  lemma Level2Spelled3() ensures forall k :: 9 <= k < 12 ==> SpelledByPhonics(Level2Words[k]) {
    assert SpelledByPhonics(Level2Words[9]);
    assert SpelledByPhonics(Level2Words[10]);
    assert SpelledByPhonics(Level2Words[11]);
  }

  lemma Level2Spelled4() ensures forall k :: 12 <= k < 15 ==> SpelledByPhonics(Level2Words[k]) {
    assert SpelledByPhonics(Level2Words[12]);
    assert SpelledByPhonics(Level2Words[13]);
    assert SpelledByPhonics(Level2Words[14]);
  }

  lemma Level3Spelled0() ensures forall k :: 0 <= k < 3 ==> SpelledByPhonics(Level3Words[k]) {
    assert SpelledByPhonics(Level3Words[0]);
    assert SpelledByPhonics(Level3Words[1]);
    assert SpelledByPhonics(Level3Words[2]);
  }

  lemma Level3Spelled1() ensures forall k :: 3 <= k < 6 ==> SpelledByPhonics(Level3Words[k]) {
    assert SpelledByPhonics(Level3Words[3]);
    assert SpelledByPhonics(Level3Words[4]);
    assert SpelledByPhonics(Level3Words[5]);
  }

  lemma Level3Spelled2() ensures forall k :: 6 <= k < 9 ==> SpelledByPhonics(Level3Words[k]) {
    assert SpelledByPhonics(Level3Words[6]);
    assert SpelledByPhonics(Level3Words[7]);
    assert SpelledByPhonics(Level3Words[8]);
  }

  lemma Level3Spelled3() ensures forall k :: 9 <= k < 12 ==> SpelledByPhonics(Level3Words[k]) {
    assert SpelledByPhonics(Level3Words[9]);
    assert SpelledByPhonics(Level3Words[10]);
    assert SpelledByPhonics(Level3Words[11]);
  }

  lemma Level4Spelled0() ensures forall k :: 0 <= k < 3 ==> SpelledByPhonics(Level4Words[k]) {
    assert SpelledByPhonics(Level4Words[0]);
    assert SpelledByPhonics(Level4Words[1]);
    assert SpelledByPhonics(Level4Words[2]);
  }

  lemma Level4Spelled1() ensures forall k :: 3 <= k < 6 ==> SpelledByPhonics(Level4Words[k]) {
    assert SpelledByPhonics(Level4Words[3]);
    assert SpelledByPhonics(Level4Words[4]);
    assert SpelledByPhonics(Level4Words[5]);
  }

  lemma Level4Spelled2() ensures forall k :: 6 <= k < 9 ==> SpelledByPhonics(Level4Words[k]) {
    assert SpelledByPhonics(Level4Words[6]);
    assert SpelledByPhonics(Level4Words[7]);
    assert SpelledByPhonics(Level4Words[8]);
  }

  lemma Level4Spelled3() ensures forall k :: 9 <= k < 12 ==> SpelledByPhonics(Level4Words[k]) {
    assert SpelledByPhonics(Level4Words[9]);
    assert SpelledByPhonics(Level4Words[10]);
    assert SpelledByPhonics(Level4Words[11]);
  }

  lemma Level5Spelled0() ensures forall k :: 0 <= k < 3 ==> SpelledByPhonics(Level5Words[k]) {
    assert SpelledByPhonics(Level5Words[0]);
    assert SpelledByPhonics(Level5Words[1]);
    assert SpelledByPhonics(Level5Words[2]);
  }

  lemma Level5Spelled1() ensures forall k :: 3 <= k < 6 ==> SpelledByPhonics(Level5Words[k]) {
    assert SpelledByPhonics(Level5Words[3]);
    assert SpelledByPhonics(Level5Words[4]);
    assert SpelledByPhonics(Level5Words[5]);
  }

  lemma Level5Spelled2() ensures forall k :: 6 <= k < 9 ==> SpelledByPhonics(Level5Words[k]) {
    assert SpelledByPhonics(Level5Words[6]);
    assert SpelledByPhonics(Level5Words[7]);
    assert SpelledByPhonics(Level5Words[8]);
  }

  lemma Level5Spelled3() ensures forall k :: 9 <= k < 12 ==> SpelledByPhonics(Level5Words[k]) {
    assert SpelledByPhonics(Level5Words[9]);
    assert SpelledByPhonics(Level5Words[10]);
    assert SpelledByPhonics(Level5Words[11]);
  }

  /** `pool[Math.floor(r * pool.length)]`, or nothing for an empty pool. */
  function Pick(pool: seq<WordData>, r: real): (w: Option<WordData>)
    requires 0.0 <= r < 1.0
    ensures (w.None? <==> pool == []) && (w.Some? ==> w.value in pool)
  {
    if pool == [] then None
    else
      var n := |pool| as real;
      assert r * n < n by { assert (1.0 - r) * n > 0.0; }
      Some(pool[(r * n).Floor])
  }

  /**
   * `getRandomWord`: `level` absent or 0 (falsy) picks from the whole
   * catalogue, any other level from that level's list; `r` stands for
   * `Math.random()`. An empty list gives no word (`undefined`).
   */
  function RandomWord(level: Option<int>, r: real): (w: Option<WordData>)
    requires 0.0 <= r < 1.0
    ensures var pool := if level.None? || level.value == 0 then AllWords() else WordsByLevel(level.value);
      (w.None? <==> pool == []) && (w.Some? ==> w.value in pool)
    ensures w.Some? && level.Some? && level.value != 0 ==> w.value.level == level.value
  {
    Pick(if level.None? || level.value == 0 then AllWords() else WordsByLevel(level.value), r)
  }
}
