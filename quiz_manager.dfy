/** QuizManager: a ten-question quiz drawn from a fixed question bank per
    model key, ordered by the scores of an on-device model when one is
    loaded, at random otherwise. */
module Quiz {
  import opened Engine

  datatype Question = Question(q: string, options: seq<string>, correctIndex: int)

  /** An operation that either throws or finishes with a value. */
  datatype Outcome<T> = Threw | Done(value: T)

  function Min(a: int, b: int): int {
    if a < b then a else b
  }

  // ---------------------------------------------------------------------------
  // The question bank
  // ---------------------------------------------------------------------------

  function JWSTQuestion(i: nat): (q: Question)
    requires i < 10
    ensures 0 <= q.correctIndex < |q.options|
  {
    if i == 0 then Question("In which year was JWST launched?", ["2018", "2020", "2021", "2022"], 2)
    else if i == 1 then Question("What does JWST stand for?", ["James Web Science Telescope", "James Webb Space Telescope", "Jet Wave Spectrum Telescope", "Juno Wide Space Telescope"], 1)
    else if i == 2 then Question("Which telescope did JWST succeed?", ["Chandra", "Spitzer", "Kepler", "Hubble"], 3)
    else if i == 3 then Question("What type of light does JWST mainly observe?", ["Visible", "Infrared", "X-ray", "Ultraviolet"], 1)
    else if i == 4 then Question("Where is JWST located?", ["Low Earth Orbit", "Moon Orbit", "Lagrange Point L2", "Geostationary Orbit"], 2)
    else if i == 5 then Question("Which agency built the JWST?", ["NASA", "ESA", "JAXA", "CNSA"], 0)
    else if i == 6 then Question("What is the diameter of JWST's mirror?", ["3.5 meters", "4.5 meters", "6.5 meters", "10 meters"], 2)
    else if i == 7 then Question("What is the purpose of the sunshield on JWST?", ["Power generation", "Radiation protection", "Thermal control", "Communication"], 2)
    else if i == 8 then Question("Which rocket launched the JWST?", ["Atlas V", "Falcon 9", "Ariane 5", "Soyuz"], 2)
    else Question("JWST mainly studies?", ["Black holes", "Galaxy formation", "Earth climate", "Mars geology"], 1)
  }

  function PerseveranceRoverQuestion(i: nat): (q: Question)
    requires i < 10
    ensures 0 <= q.correctIndex < |q.options|
  {
    if i == 0 then Question("On which planet did Perseverance land?", ["Mars", "Moon", "Venus", "Mercury"], 0)
    else if i == 1 then Question("Which organization launched Perseverance?", ["NASA", "ESA", "Roscosmos", "ISRO"], 0)
    else if i == 2 then Question("What year did Perseverance land?", ["2018", "2019", "2020", "2021"], 3)
    else if i == 3 then Question("What helicopter accompanied Perseverance?", ["Buzz", "Flyer", "Ingenuity", "Hover"], 2)
    else if i == 4 then Question("What is Perseverance's mission?", ["Study the Sun", "Explore Jupiter", "Search for life on Mars", "Map Earth"], 2)
    else if i == 5 then Question("What is the name of the landing site?", ["Valles Marineris", "Olympus Mons", "Jezero Crater", "Gale Crater"], 2)
    else if i == 6 then Question("Which rover is a twin of Perseverance?", ["Curiosity", "Opportunity", "Spirit", "None"], 0)
    else if i == 7 then Question("How many wheels does Perseverance have?", ["4", "6", "8", "10"], 1)
    else if i == 8 then Question("Perseverance is powered by?", ["Solar panels", "Battery", "Nuclear power", "Wind turbine"], 2)
    else Question("What feature allows Perseverance to collect samples?", ["Drill", "Laser", "Microscope", "Radar"], 0)
  }

  function TurbofanEngineQuestion(i: nat): (q: Question)
    requires i < 10
    ensures 0 <= q.correctIndex < |q.options|
  {
    if i == 0 then Question("A turbofan engine has a large fan at the front.", ["True", "False"], 0)
    else if i == 1 then Question("Which part generates most thrust in modern turbofans?", ["Combustion", "Fan", "Nozzle", "Turbine"], 1)
    else if i == 2 then Question("What is bypass ratio?", ["Fuel to air ratio", "Air bypassing core vs air through core", "Engine size", "Thrust ratio"], 1)
    else if i == 3 then Question("Turbofans are used mostly in?", ["Helicopters", "Fighter jets", "Commercial airliners", "Drones"], 2)
    else if i == 4 then Question("Turbofan engines are more efficient at?", ["Subsonic speeds", "Supersonic speeds", "Stationary", "Vertical takeoff"], 0)
    else if i == 5 then Question("What does the turbine do?", ["Burn fuel", "Spin the fan", "Cool the engine", "Measure speed"], 1)
    else if i == 6 then Question("Which part compresses air before combustion?", ["Nozzle", "Combustor", "Compressor", "Intake"], 2)
    else if i == 7 then Question("After burning, gases exit through?", ["Fan", "Compressor", "Exhaust nozzle", "Turbine"], 2)
    else if i == 8 then Question("Which engine has a higher bypass ratio?", ["Military jet", "Fighter engine", "Airliner engine", "Rocket"], 2)
    else Question("Turbofan efficiency improves with?", ["Higher altitudes", "Lower bypass", "Narrow fans", "Slower speeds"], 0)
  }

  function StarlinkQuestion(i: nat): (q: Question)
    requires i < 10
    ensures 0 <= q.correctIndex < |q.options|
  {
    if i == 0 then Question("What is Starlink?", ["Space telescope", "Mars rover", "Internet satellites", "Lunar base"], 2)
    else if i == 1 then Question("Who operates Starlink?", ["NASA", "ESA", "Blue Origin", "SpaceX"], 3)
    else if i == 2 then Question("Starlink provides internet via?", ["Cables", "Towers", "Satellites", "Lasers"], 2)
    else if i == 3 then Question("Where are Starlink satellites deployed?", ["LEO", "MEO", "GEO", "Deep Space"], 0)
    else if i == 4 then Question("When did Starlink begin deployment?", ["2015", "2018", "2019", "2021"], 2)
    else if i == 5 then Question("What is a major concern about Starlink?", ["Slow speed", "Too expensive", "Space debris", "It blocks GPS"], 2)
    else if i == 6 then Question("Starlink aims to help with?", ["Deep space exploration", "Mars settlement", "Rural internet access", "Weather forecasting"], 2)
    else if i == 7 then Question("How many satellites does Starlink plan to deploy?", ["Few hundred", "One thousand", "Over 40,000", "Less than 500"], 2)
    else if i == 8 then Question("Starlink satellites use which technology to adjust orbit?", ["Liquid fuel", "Solar sails", "Ion thrusters", "Chemical boosters"], 2)
    else Question("Which rocket is used for Starlink launches?", ["Atlas V", "Delta IV", "Falcon 9", "Ariane 5"], 2)
  }

  /** The four topics the bank knows. */
  datatype Topic = JWST | PerseveranceRover | TurbofanEngine | Starlink

  /** Question i of a topic's bank. */
  function BankQuestion(t: Topic, i: nat): (q: Question)
    requires i < 10
    ensures 0 <= q.correctIndex < |q.options|
  {
    match t
    case JWST => JWSTQuestion(i)
    case PerseveranceRover => PerseveranceRoverQuestion(i)
    case TurbofanEngine => TurbofanEngineQuestion(i)
    case Starlink => StarlinkQuestion(i)
  }

  /** A topic's ten questions, in bank order. */
  function Bank(t: Topic): (r: seq<Question>)
    ensures |r| == 10 && WellFormed(r)
  {
    seq(10, i requires 0 <= i < 10 => BankQuestion(t, i))
  }

  /** The topic a model key names, if any. */
  function TopicOf(key: string): (r: Option<Topic>)
    ensures r.Some? <==> key in ModelKeys
  {
    if key == "JWST" then Some(JWST)
    else if key == "PerseveranceRover" then Some(PerseveranceRover)
    else if key == "TurbofanEngine" then Some(TurbofanEngine)
    else if key == "Starlink" then Some(Starlink)
    else None
  }

  /** The keys the bank and the model's one-hot input know, in input order. */
  const ModelKeys: seq<string> := ["JWST", "PerseveranceRover", "TurbofanEngine", "Starlink"]

  /** Every question's correct index points at one of its options. */
  predicate WellFormed(bank: seq<Question>) {
    forall i :: 0 <= i < |bank| ==> 0 <= bank[i].correctIndex < |bank[i].options|
  }

  /** GetBank: ten well-formed questions per known key, none for any other
      key. */
  function GetBank(key: string): (r: seq<Question>)
    ensures key in ModelKeys ==> |r| == 10
    ensures key !in ModelKeys ==> r == []
    ensures WellFormed(r)
  {
    match TopicOf(key)
    case Some(t) => Bank(t)
    case None => []
  }

  // ---------------------------------------------------------------------------
  // Model input and tensor sizes
  // ---------------------------------------------------------------------------

  /** The second dimension of a tensor shape when it has one, else the
      first; a shape of rank 0 has neither and the lookup throws. */
  function TensorWidth(shape: seq<int>): (r: Option<int>)
    ensures |shape| == 0 <==> r.None?
    ensures |shape| == 1 ==> r == Some(shape[0])
    ensures |shape| > 1 ==> r == Some(shape[1])
  {
    if |shape| > 1 then Some(shape[1]) else if |shape| == 1 then Some(shape[0]) else None
  }

  /** Array.IndexOf over the four keys: the key's position, -1 when absent. */
  function KeyIndex(key: string): (r: int)
    ensures -1 <= r < |ModelKeys|
    ensures r >= 0 ==> ModelKeys[r] == key
    ensures r == -1 <==> key !in ModelKeys
  {
    if key == "JWST" then 0
    else if key == "PerseveranceRover" then 1
    else if key == "TurbofanEngine" then 2
    else if key == "Starlink" then 3
    else -1
  }

  /** The [1, vocabSize] input row. Allocating a negative width throws, and
      so does marking a known key whose position is past the row's end. */
  function OneHot(vocabSize: int, key: string): (r: Outcome<seq<real>>)
    ensures key !in ModelKeys ==> (r.Threw? <==> vocabSize < 0)
    ensures key in ModelKeys ==> (r.Threw? <==> vocabSize <= KeyIndex(key))
    ensures r.Done? ==> |r.value| == vocabSize
    // a 1 exactly at the key's position among the four keys, 0 elsewhere
    ensures r.Done? ==> forall i :: 0 <= i < |r.value| ==>
              (r.value[i] == 1.0 <==> i < |ModelKeys| && ModelKeys[i] == key) &&
              (r.value[i] == 0.0 || r.value[i] == 1.0)
  {
    var idx := KeyIndex(key);
    if vocabSize < 0 || idx >= vocabSize then Threw
    else Done(seq(vocabSize, i => if i == idx then 1.0 else 0.0))
  }

  // ---------------------------------------------------------------------------
  // Ranking: a stable sort on descending keys
  // ---------------------------------------------------------------------------

  /** Index `a` comes before index `b`: a higher key, or an equal key and an
      earlier position (OrderByDescending keeps equal elements in order). */
  predicate Before(keys: seq<real>, a: nat, b: nat)
    requires a < |keys| && b < |keys|
  {
    keys[a] > keys[b] || (keys[a] == keys[b] && a < b)
  }

  /** A sequence of indices listed in ranking order. */
  predicate Ordered(keys: seq<real>, s: seq<nat>) {
    (forall i :: 0 <= i < |s| ==> s[i] < |keys|) &&
    (forall i, j :: 0 <= i < j < |s| ==> Before(keys, s[i], s[j]))
  }

  lemma OrderedIsDistinct(keys: seq<real>, s: seq<nat>)
    requires Ordered(keys, s)
    ensures Distinct(s)
  {
  }

  /** Inserts index `x` at its place in the ranking. */
  function Insert(keys: seq<real>, x: nat, s: seq<nat>): (r: seq<nat>)
    ensures |r| == |s| + 1
    ensures forall y :: y in r <==> y == x || y in s
    decreases |s|
  {
    if |s| == 0 then [x]
    else if x < |keys| && s[0] < |keys| && Before(keys, x, s[0]) then [x] + s
    else [s[0]] + Insert(keys, x, s[1..])
  }

  lemma {:induction false} InsertOrdered(keys: seq<real>, x: nat, s: seq<nat>)
    requires x < |keys| && Ordered(keys, s) && x !in s
    ensures Ordered(keys, Insert(keys, x, s))
    decreases |s|
  {
    if |s| == 0 {
    } else if Before(keys, x, s[0]) {
      InsertAtFront(keys, x, s);
    } else {
      assert Ordered(keys, s[1..]);
      InsertOrdered(keys, x, s[1..]);
      InsertBehind(keys, x, s);
    }
  }

  /** An index ranking before the head goes in front. */
  lemma InsertAtFront(keys: seq<real>, x: nat, s: seq<nat>)
    requires x < |keys| && Ordered(keys, s) && |s| > 0 && Before(keys, x, s[0])
    ensures Ordered(keys, [x] + s)
  {
    var r := [x] + s;
    forall i, j | 0 <= i < j < |r|
      ensures Before(keys, r[i], r[j])
    {
      if i == 0 && j > 1 {
        assert r[j] == s[j - 1];
        assert Before(keys, s[0], s[j - 1]);
      } else if i > 0 {
        assert r[i] == s[i - 1] && r[j] == s[j - 1];
      }
    }
  }

  /** Otherwise the head stays in front of the rest with the index inserted. */
  lemma InsertBehind(keys: seq<real>, x: nat, s: seq<nat>)
    requires x < |keys| && Ordered(keys, s) && x !in s && |s| > 0 && !Before(keys, x, s[0])
    requires Ordered(keys, Insert(keys, x, s[1..]))
    ensures Ordered(keys, Insert(keys, x, s))
  {
    var rest := Insert(keys, x, s[1..]);
    var r := [s[0]] + rest;
    assert Insert(keys, x, s) == r;
    assert x != s[0];
    assert Before(keys, s[0], x);
    forall i, j | 0 <= i < j < |r|
      ensures Before(keys, r[i], r[j])
    {
      if i == 0 {
        assert r[j] == rest[j - 1] && rest[j - 1] in rest;
        if r[j] != x {
          assert r[j] in s[1..];
          var k :| 0 <= k < |s[1..]| && s[1..][k] == r[j];
          assert s[k + 1] == r[j];
        }
      } else {
        assert r[i] == rest[i - 1] && r[j] == rest[j - 1];
      }
    }
  }

  /** The indices 0 .. n-1 in ranking order. */
  function RankPrefix(keys: seq<real>, n: nat): (r: seq<nat>)
    requires n <= |keys|
    ensures |r| == n
    ensures forall y: nat :: y in r <==> y < n
    ensures Ordered(keys, r)
  {
    if n == 0 then []
    else
      var s := RankPrefix(keys, n - 1);
      InsertOrdered(keys, n - 1, s);
      Insert(keys, n - 1, s)
  }

  /** OrderByDescending over (key, index) pairs, as the sequence of indices:
      a permutation of all indices in which higher keys come first and equal
      keys keep their order. */
  function RankOrder(keys: seq<real>): (r: seq<nat>)
    ensures |r| == |keys|
    ensures forall y: nat :: y in r <==> y < |keys|
    ensures Ordered(keys, r)
  {
    RankPrefix(keys, |keys|)
  }

  // ---------------------------------------------------------------------------
  // The ranked part, the fill and the random pick, on bank positions
  // ---------------------------------------------------------------------------

  /** Where(idx < bank.Count): keeps the positions inside the bank, in order. */
  function Below(s: seq<nat>, bound: nat): (r: seq<nat>)
    ensures |r| <= |s|
    ensures forall y :: y in r <==> y in s && y < bound
    ensures forall i :: 0 <= i < |r| ==> r[i] < bound
    decreases |s|
  {
    if |s| == 0 then []
    else if s[0] < bound then [s[0]] + Below(s[1..], bound)
    else Below(s[1..], bound)
  }

  lemma {:induction false} BelowOrdered(keys: seq<real>, s: seq<nat>, bound: nat)
    requires Ordered(keys, s)
    ensures Ordered(keys, Below(s, bound))
    decreases |s|
  {
    if |s| > 0 {
      assert Ordered(keys, s[1..]);
      BelowOrdered(keys, s[1..], bound);
      var rest := Below(s[1..], bound);
      if s[0] < bound {
        var r := [s[0]] + rest;
        forall i, j | 0 <= i < j < |r|
          ensures Before(keys, r[i], r[j])
        {
          if i == 0 {
            assert r[j] == rest[j - 1] && rest[j - 1] in rest;
            var k :| 0 <= k < |s[1..]| && s[1..][k] == r[j];
            assert s[k + 1] == r[j];
          } else {
            assert r[i] == rest[i - 1] && r[j] == rest[j - 1];
          }
        }
      }
    }
  }

  /** The ranked part: the ten best-ranked score indices that fall inside
      the bank, best first. */
  function TopRanked(scores: seq<real>, bankSize: nat): (r: seq<nat>)
    ensures |r| <= 10
    ensures Ordered(scores, r)
    ensures forall i :: 0 <= i < |r| ==> r[i] < bankSize
    // exactly the bank indices among the ten best-ranked scores
    ensures forall k: nat :: k in r <==> k < bankSize && k in RankOrder(scores)[..Min(10, |scores|)]
    // every chosen index outranks every bank index left out
    ensures forall a: nat, k: nat :: a in r && k < |scores| && k < bankSize && k !in r ==> Before(scores, a, k)
  {
    var ranked := RankOrder(scores);
    var m := Min(10, |ranked|);
    assert Ordered(scores, ranked[..m]);
    BelowOrdered(scores, ranked[..m], bankSize);
    var r := Below(ranked[..m], bankSize);
    TopOutranksRest(scores, ranked, m, bankSize);
    r
  }

  lemma TopOutranksRest(scores: seq<real>, ranked: seq<nat>, m: nat, bankSize: nat)
    requires ranked == RankOrder(scores) && m <= |ranked|
    ensures forall a: nat, k: nat ::
              (a in Below(ranked[..m], bankSize) && k < |scores| && k < bankSize && k !in Below(ranked[..m], bankSize))
              ==> Before(scores, a, k)
  {
    var r := Below(ranked[..m], bankSize);
    forall a: nat, k: nat | a in r && k < |scores| && k < bankSize && k !in r
      ensures Before(scores, a, k)
    {
      var i :| 0 <= i < m && ranked[..m][i] == a;
      assert k in ranked;
      var j :| 0 <= j < |ranked| && ranked[j] == k;
      assert i < j;
    }
  }

  /** Bank positions below m that `top` does not hold, in bank order: the
      Where(!top.Contains(q)) of the fill. */
  function Unused(m: nat, top: seq<nat>): (r: seq<nat>)
    ensures forall y: nat :: y in r <==> y < m && y !in top
    ensures forall i :: 0 <= i < |r| ==> r[i] < m
    ensures Distinct(r)
  {
    if m == 0 then []
    else if m - 1 in top then Unused(m - 1, top)
    else Unused(m - 1, top) + [m - 1]
  }

  /** The elements of `top` below m. */
  function TopBelow(top: seq<nat>, m: nat): set<nat> {
    set y | y in top && y < m
  }

  lemma {:induction false} UnusedCount(m: nat, top: seq<nat>)
    ensures |Unused(m, top)| + |TopBelow(top, m)| == m
  {
    if m > 0 {
      UnusedCount(m - 1, top);
      if m - 1 in top {
        assert TopBelow(top, m) == TopBelow(top, m - 1) + {m - 1};
      } else {
        assert TopBelow(top, m) == TopBelow(top, m - 1);
      }
    } else {
      assert TopBelow(top, m) == {};
    }
  }

  /** The positions a sequence holds. */
  function Elements(s: seq<nat>): set<nat> {
    set y | y in s
  }

  lemma {:induction false} DistinctCard(s: seq<nat>)
    requires Distinct(s)
    ensures |Elements(s)| == |s|
  {
    if |s| > 0 {
      var t := s[..|s| - 1];
      var last := s[|s| - 1];
      assert Distinct(t);
      DistinctCard(t);
      assert s == t + [last];
      assert last !in Elements(t);
      assert Elements(s) == Elements(t) + {last};
    }
  }

  /** With `top` made of distinct positions inside the bank, exactly
      bankSize - |top| positions are left for the fill. */
  lemma UnusedLeft(bankSize: nat, top: seq<nat>)
    requires Distinct(top) && forall i :: 0 <= i < |top| ==> top[i] < bankSize
    ensures |Unused(bankSize, top)| == bankSize - |top|
  {
    UnusedCount(bankSize, top);
    DistinctCard(top);
    assert TopBelow(top, bankSize) == Elements(top);
  }

  /** OrderBy(_ => Guid.NewGuid()): the candidates sorted by a fresh random
      key each, `guid(p)` being the key drawn for position p. */
  function Shuffled(c: seq<nat>, guid: nat -> int): (r: seq<nat>)
    ensures |r| == |c|
    ensures forall y :: y in r <==> y in c
    ensures Distinct(c) ==> Distinct(r)
  {
    var keys := seq(|c|, p requires 0 <= p => -(guid(p) as real));
    var order := RankOrder(keys);
    OrderedIsDistinct(keys, order);
    var r := seq(|c|, k requires 0 <= k < |c| => c[order[k]]);
    ShuffledFacts(c, order, r);
    r
  }

  lemma ShuffledFacts(c: seq<nat>, order: seq<nat>, r: seq<nat>)
    requires |order| == |c| == |r| && Distinct(order)
    requires forall y: nat :: y in order <==> y < |c|
    requires forall k :: 0 <= k < |c| ==> order[k] < |c| && r[k] == c[order[k]]
    ensures forall y :: y in r <==> y in c
    ensures Distinct(c) ==> Distinct(r)
  {
    forall y | y in c
      ensures y in r
    {
      var p :| 0 <= p < |c| && c[p] == y;
      assert p in order;
      var k :| 0 <= k < |order| && order[k] == p;
      assert r[k] == y;
    }
    forall y | y in r
      ensures y in c
    {
      var k :| 0 <= k < |r| && r[k] == y;
      assert order[k] in order;
    }
    if Distinct(c) {
      forall i, j | 0 <= i < j < |r|
        ensures r[i] != r[j]
      {
        assert order[i] != order[j];
      }
    }
  }

  lemma DistinctJoin(a: seq<nat>, b: seq<nat>)
    requires Distinct(a) && Distinct(b)
    requires forall y :: y in b ==> y !in a
    ensures Distinct(a + b)
  {
    var ab := a + b;
    forall i, j | 0 <= i < j < |ab|
      ensures ab[i] != ab[j]
    {
      if i < |a| && j >= |a| {
        assert ab[j] == b[j - |a|] && b[j - |a|] in b;
      }
    }
  }

  /** A prefix of the shuffled unused positions is new, distinct and inside
      the bank. */
  lemma TakenIsUnused(top: seq<nat>, bankSize: nat, fill: seq<nat>, taken: seq<nat>)
    requires Distinct(fill) && forall y :: y in fill <==> y in Unused(bankSize, top)
    requires |taken| <= |fill| && taken == fill[..|taken|]
    ensures Distinct(taken)
    ensures forall y :: y in taken ==> y !in top && y < bankSize
  {
    forall y | y in taken
      ensures y in fill
    {
      var k :| 0 <= k < |taken| && taken[k] == y;
      assert fill[k] == y;
    }
  }

  /** Step 4 of PickWithTFLite: when `top` has fewer than ten positions,
      unused bank positions in random order are appended up to ten. */
  function Filled(top: seq<nat>, bankSize: nat, guid: nat -> int): (r: seq<nat>)
    requires Distinct(top) && |top| <= 10
    requires forall i :: 0 <= i < |top| ==> top[i] < bankSize
    ensures Distinct(r)
    ensures forall i :: 0 <= i < |r| ==> r[i] < bankSize
    ensures |r| == Min(10, bankSize)
    ensures |top| <= |r| && r[..|top|] == top
  {
    UnusedLeft(bankSize, top);
    if |top| < 10 then
      var fill := Shuffled(Unused(bankSize, top), guid);
      var taken := fill[..Min(10 - |top|, |fill|)];
      TakenIsUnused(top, bankSize, fill, taken);
      DistinctJoin(top, taken);
      assert (top + taken)[..|top|] == top;
      top + taken
    else
      top
  }

  /** PickWithTFLite's selection from the scores: the ranked part, then the
      fill. */
  function PickRanked(scores: seq<real>, bankSize: nat, guid: nat -> int): (r: seq<nat>)
    ensures Distinct(r)
    ensures forall i :: 0 <= i < |r| ==> r[i] < bankSize
    ensures |r| == Min(10, bankSize)
    // the ranked part comes first, unchanged
    ensures |TopRanked(scores, bankSize)| <= |r| && r[..|TopRanked(scores, bankSize)|] == TopRanked(scores, bankSize)
  {
    var top := TopRanked(scores, bankSize);
    OrderedIsDistinct(scores, top);
    Filled(top, bankSize, guid)
  }

  /** Without a model: the whole bank in random order, cut to ten. */
  function PickRandom(bankSize: nat, guid: nat -> int): (r: seq<nat>)
    ensures Distinct(r)
    ensures forall i :: 0 <= i < |r| ==> r[i] < bankSize
    ensures |r| == Min(10, bankSize)
  {
    UnusedLeft(bankSize, []);
    var all := Shuffled(Unused(bankSize, []), guid);
    all[..Min(10, |all|)]
  }

  /** The scores row the model returns, `score(i)` being column i. */
  function Scores(outputCols: nat, score: nat -> real): (r: seq<real>)
    ensures |r| == outputCols && forall i :: 0 <= i < outputCols ==> r[i] == score(i)
  {
    seq(outputCols, i requires 0 <= i => score(i))
  }

  /** PickWithTFLite: throws when the input row cannot be built or the
      score row cannot be allocated; otherwise the ranked pick. */
  function ModelPick(vocabSize: int, outputCols: int, key: string, bankSize: nat,
                     score: nat -> real, guid: nat -> int): (r: Option<seq<nat>>)
    ensures r.None? <==> OneHot(vocabSize, key).Threw? || outputCols < 0
    ensures r.Some? ==> r.value == PickRanked(Scores(outputCols, score), bankSize, guid)
  {
    if OneHot(vocabSize, key).Threw? || outputCols < 0 then None
    else Some(PickRanked(Scores(outputCols, score), bankSize, guid))
  }

  /** The bank questions at the picked positions. */
  function Select(bank: seq<Question>, picks: seq<nat>): (r: seq<Question>)
    requires forall i :: 0 <= i < |picks| ==> picks[i] < |bank|
    ensures |r| == |picks| && forall i :: 0 <= i < |r| ==> r[i] == bank[picks[i]]
  {
    seq(|picks|, i requires 0 <= i < |picks| => bank[picks[i]])
  }

  /** Every question picked from a well-formed bank is a well-formed bank
      question. */
  lemma SelectKeepsBankProperties(bank: seq<Question>, picks: seq<nat>)
    requires forall i :: 0 <= i < |picks| ==> picks[i] < |bank|
    requires WellFormed(bank)
    ensures WellFormed(Select(bank, picks))
    ensures forall i :: 0 <= i < |picks| ==> Select(bank, picks)[i] in bank
  {
  }

  // ---------------------------------------------------------------------------
  // The component
  // ---------------------------------------------------------------------------

  /** The input and output tensor shapes of a loaded model. */
  datatype Tensors = Tensors(inShape: seq<int>, outShape: seq<int>)

  datatype QuizState = QuizState(
    interpreter: bool,                 // interpreter != null
    vocabSize: int,
    outputCols: int,
    bank: Option<seq<Question>>,       // None while null
    current: Option<seq<Question>>)    // currentQuestions, None while null

  /** Awake. Without a model asset the sizes keep their defaults (4 and 0).
      With one, the interpreter exists from then on; a rank-0 shape throws
      before the bank is fetched. */
  function Awoken(key: string, model: Option<Tensors>): (r: QuizState)
    ensures r.current.None? && (r.interpreter <==> model.Some?)
    ensures model.None? ==> r == QuizState(false, 4, 0, Some(GetBank(key)), None)
    ensures model.Some? && TensorWidth(model.value.inShape).Some? && TensorWidth(model.value.outShape).Some? ==>
              r.vocabSize == TensorWidth(model.value.inShape).value &&
              r.outputCols == TensorWidth(model.value.outShape).value &&
              r.bank == Some(GetBank(key))
    ensures model.Some? && (TensorWidth(model.value.inShape).None? || TensorWidth(model.value.outShape).None?) ==>
              r.bank.None?
  {
    match model
    case None => QuizState(false, 4, 0, Some(GetBank(key)), None)
    case Some(t) =>
      match TensorWidth(t.inShape)
      case None => QuizState(true, 4, 0, None, None)
      case Some(v) =>
        match TensorWidth(t.outShape)
        case None => QuizState(true, v, 0, None, None)
        case Some(c) => QuizState(true, v, c, Some(GetBank(key)), None)
  }

  /** The positions a click picks, None when picking throws. */
  function Picked(s: QuizState, key: string, score: nat -> real, guid: nat -> int): (r: Option<seq<nat>>)
    ensures r.None? <==> s.interpreter && (OneHot(s.vocabSize, key).Threw? || s.outputCols < 0)
    ensures r.Some? ==> Distinct(r.value) && |r.value| == Min(10, |GetBank(key)|)
    ensures r.Some? ==> forall i :: 0 <= i < |r.value| ==> r.value[i] < |GetBank(key)|
  {
    var bankSize := |GetBank(key)|;
    if s.interpreter then ModelPick(s.vocabSize, s.outputCols, key, bankSize, score, guid)
    else Some(PickRandom(bankSize, guid))
  }

  /** OnQuizButtonClicked: the bank is fetched afresh; the new quiz replaces
      the old one unless picking throws, which leaves the old one. */
  function Clicked(s: QuizState, key: string, score: nat -> real, guid: nat -> int): (r: QuizState)
    ensures r.bank == Some(GetBank(key))
    ensures r.interpreter == s.interpreter && r.vocabSize == s.vocabSize && r.outputCols == s.outputCols
    ensures Picked(s, key, score, guid).None? ==> r.current == s.current
    ensures Picked(s, key, score, guid).Some? ==>
              r.current == Some(Select(GetBank(key), Picked(s, key, score, guid).value))
  {
    var bank := GetBank(key);
    match Picked(s, key, score, guid)
    case None => s.(bank := Some(bank))
    case Some(picks) => s.(bank := Some(bank), current := Some(Select(bank, picks)))
  }

  /** A click that does not throw starts a quiz of ten well-formed bank
      questions for a known key, and of none for an unknown key; Picked
      guarantees they sit at distinct bank positions. */
  lemma ClickStartsQuiz(s: QuizState, key: string, score: nat -> real, guid: nat -> int)
    requires !(s.interpreter && (OneHot(s.vocabSize, key).Threw? || s.outputCols < 0))
    ensures var r := Clicked(s, key, score, guid);
            r.current.Some? &&
            |r.current.value| == (if key in ModelKeys then 10 else 0) &&
            WellFormed(r.current.value) &&
            forall i :: 0 <= i < |r.current.value| ==> r.current.value[i] in GetBank(key)
  {
    var picks := Picked(s, key, score, guid).value;
    SelectKeepsBankProperties(GetBank(key), picks);
  }

  /** OnOptionSelected's verdict: nothing without a quiz or for a question
      index outside it; otherwise whether the option is the correct one. */
  function Answer(current: Option<seq<Question>>, questionIndex: int, optionIndex: int): (r: Option<bool>)
    ensures r.None? <==> current.None? || questionIndex < 0 || questionIndex >= |current.value|
    ensures r.Some? ==> (r.value <==> optionIndex == current.value[questionIndex].correctIndex)
  {
    if current.None? || questionIndex < 0 || questionIndex >= |current.value| then None
    else Some(optionIndex == current.value[questionIndex].correctIndex)
  }

  /** In a quiz a click started, every question has exactly one option that
      is answered as correct. */
  lemma OneRightOptionEach(s: QuizState, key: string, score: nat -> real, guid: nat -> int, questionIndex: int)
    requires !(s.interpreter && (OneHot(s.vocabSize, key).Threw? || s.outputCols < 0))
    requires var r := Clicked(s, key, score, guid); 0 <= questionIndex < |r.current.value|
    ensures var r := Clicked(s, key, score, guid);
            var q := r.current.value[questionIndex];
            0 <= q.correctIndex < |q.options| &&
            Answer(r.current, questionIndex, q.correctIndex) == Some(true) &&
            forall o :: 0 <= o < |q.options| && o != q.correctIndex ==> Answer(r.current, questionIndex, o) == Some(false)
  {
    ClickStartsQuiz(s, key, score, guid);
  }

  class QuizManager {
    const modelKey: string
    var interpreter: bool
    var vocabSize: int
    var outputCols: int
    var bank: Option<seq<Question>>
    var currentQuestions: Option<seq<Question>>

    function Model(): QuizState
      reads this
    {
      QuizState(interpreter, vocabSize, outputCols, bank, currentQuestions)
    }

    /** Awake, with the model's tensor shapes when an asset is assigned. */
    constructor (modelKey: string, model: Option<Tensors>)
      ensures this.modelKey == modelKey && Model() == Awoken(modelKey, model)
    {
      this.modelKey := modelKey;
      interpreter := false;
      vocabSize := 4;
      outputCols := 0;
      bank := None;
      currentQuestions := None;
      new;
      if model.Some? {
        interpreter := true;
        var inWidth := TensorWidth(model.value.inShape);
        if inWidth.None? {
          return;
        }
        vocabSize := inWidth.value;
        var outWidth := TensorWidth(model.value.outShape);
        if outWidth.None? {
          return;
        }
        outputCols := outWidth.value;
      }
      bank := Some(GetBank(modelKey));
    }

    /** `score` stands for the model's output row, `guid` for the random
        keys of the shuffle. */
    method OnQuizButtonClicked(score: nat -> real, guid: nat -> int)
      modifies this
      ensures Model() == Clicked(old(Model()), modelKey, score, guid)
    {
      var b := GetBank(modelKey);
      bank := Some(b);
      var picked: Option<seq<nat>>;
      if interpreter {
        picked := PickWithTFLite(vocabSize, outputCols, modelKey, |b|, score, guid);
      } else {
        picked := Some(PickRandom(|b|, guid));
      }
      if picked.Some? {
        currentQuestions := Some(Select(b, picked.value));
      }
    }

    /** The input row, written in place into a fresh array. */
    static method BuildInput(vocabSize: int, key: string) returns (r: Outcome<seq<real>>)
      ensures r == OneHot(vocabSize, key)
    {
      if vocabSize < 0 {
        return Threw;
      }
      var input := new real[vocabSize](_ => 0.0);
      var idx := KeyIndex(key);
      if idx >= 0 {
        if idx >= vocabSize {
          return Threw;
        }
        input[idx] := 1.0;
      }
      assert input[..] == seq(vocabSize, i => if i == idx then 1.0 else 0.0);
      return Done(input[..]);
    }

    /** Builds the input, flattens the score row in a loop, then ranks,
        filters and fills; None when it throws. */
    static method PickWithTFLite(vocabSize: int, outputCols: int, key: string, bankSize: nat,
                                 score: nat -> real, guid: nat -> int) returns (r: Option<seq<nat>>)
      ensures r == ModelPick(vocabSize, outputCols, key, bankSize, score, guid)
    {
      var input := BuildInput(vocabSize, key);
      if input.Threw? || outputCols < 0 {
        return None;
      }
      var scored: seq<real> := [];
      var i := 0;
      while i < outputCols
        invariant 0 <= i <= outputCols
        invariant |scored| == i && forall k :: 0 <= k < i ==> scored[k] == score(k)
      {
        scored := scored + [score(i)];
        i := i + 1;
      }
      assert scored == Scores(outputCols, score);
      return Some(PickRanked(scored, bankSize, guid));
    }

    method OnOptionSelected(questionIndex: int, optionIndex: int) returns (correct: Option<bool>)
      ensures correct == Answer(currentQuestions, questionIndex, optionIndex)
    {
      if currentQuestions.None? || questionIndex < 0 || questionIndex >= |currentQuestions.value| {
        return None;
      }
      var q := currentQuestions.value[questionIndex];
      correct := Some(optionIndex == q.correctIndex);
    }
  }
}
