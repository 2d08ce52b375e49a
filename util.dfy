/** The static helpers of `Util` (DeltaUID/utils/api/utils.py): the two 31-bit
    string hashes, number and duration formatting, rank tiers, the weekday
    offset of `get_Sunday_date`, response normalisation, request parameters
    and the id-to-name tables. */
module DeltaUtil {
  import opened Text

  // ---------------------------------------------------------------------------
  // `x & 0x7FFFFFFF`
  // ---------------------------------------------------------------------------

  const Two31: int := 0x8000_0000
  const Mask31: int := 0x7FFF_FFFF

  /** Bitwise AND of two naturals, one bit at a time. */
  function AndNat(a: nat, b: nat): nat
    decreases a
  {
    if a == 0 || b == 0 then 0
    else 2 * AndNat(a / 2, b / 2) + (if a % 2 == 1 && b % 2 == 1 then 1 else 0)
  }

  function Pow2(k: nat): nat {
    if k == 0 then 1 else 2 * Pow2(k - 1)
  }

  lemma Pow2Positive(k: nat)
    ensures Pow2(k) >= 1
  {
  }

  lemma {:induction false} MulAtLeast(k: int, d: int)
    requires k >= 1 && d > 0
    ensures k * d >= d
    decreases k
  {
    if k > 1 {
      MulAtLeast(k - 1, d);
      assert k * d == (k - 1) * d + d;
    }
  }

  lemma MulSmallIsZero(k: int, d: int, e: int)
    requires d > 0 && k * d == e && -d < e < d
    ensures k == 0
  {
    if k >= 1 {
      MulAtLeast(k, d);
    } else if k <= -1 {
      MulAtLeast(-k, d);
    }
  }

  lemma DivModParts(x: int, d: int)
    requires d > 0
    ensures x == (x / d) * d + x % d && 0 <= x % d < d
  {
  }

  lemma MulAssoc(q: int, h: int)
    ensures 2 * (q * h) == q * (2 * h)
  {
  }

  /** Division with remainder is unique. */
  lemma ModOfDecomposition(x: int, d: int, q: int, r: int)
    requires d > 0 && 0 <= r < d && x == q * d + r
    ensures x % d == r && x / d == q
  {
    var q0 := x / d;
    var r0 := x % d;
    assert x == q0 * d + r0;
    assert (q - q0) * d == r0 - r;
    MulSmallIsZero(q - q0, d, r0 - r);
  }

  /** ANDing with a mask of k low one-bits keeps the k low bits: `x & (2^k - 1) == x % 2^k`. */
  lemma {:induction false} AndLowMask(x: nat, k: nat)
    ensures Pow2(k) >= 1 && AndNat(x, Pow2(k) - 1) == x % Pow2(k)
  {
    Pow2Positive(k);
    if k == 0 {
      assert Pow2(k) - 1 == 0;
      assert x % 1 == 0;
    } else if x == 0 {
      assert 0 % Pow2(k) == 0;
    } else {
      var p := Pow2(k);
      var half := Pow2(k - 1);
      Pow2Positive(k - 1);
      var b := p - 1;
      assert p == 2 * half;
      ModOfDecomposition(b, 2, half - 1, 1);
      assert b / 2 == half - 1 && b % 2 == 1;
      var bit := x % 2;
      assert (if x % 2 == 1 && b % 2 == 1 then 1 else 0) == bit;
      var low := (x / 2) % half;
      AndLowMask(x / 2, k - 1);
      assert AndNat(x / 2, b / 2) == low;
      assert AndNat(x, b) == 2 * low + bit;
      var q := (x / 2) / half;
      DivModParts(x / 2, half);
      DivModParts(x, 2);
      MulAssoc(q, half);
      assert x == q * p + (2 * low + bit);
      ModOfDecomposition(x, p, q, 2 * low + bit);
    }
  }

  lemma Pow2Of31()
    ensures Pow2(31) == Two31
  {
    assert Pow2(8) == 256;
    assert Pow2(16) == 65536;
    assert Pow2(24) == 0x100_0000;
  }

  /** Python's `x & 0x7FFFFFFF`. For every Python integer this is `x` modulo 2^31
      (floored), which is Dafny's `%` for a positive divisor. */
  function And31(x: int): (r: int)
    ensures 0 <= r < Two31
    ensures 0 <= x < Two31 ==> r == x
  {
    x % Two31
  }

  /** On naturals, `And31` is the bitwise AND with 0x7FFFFFFF. */
  lemma And31IsBitwiseAnd(x: nat)
    ensures And31(x) == AndNat(x, Mask31)
  {
    Pow2Of31();
    AndLowMask(x, 31);
  }

  // ---------------------------------------------------------------------------
  // get_gtk
  // ---------------------------------------------------------------------------

  const GtkSeed: int := 5381

  lemma And31IsMod(x: int)
    ensures And31(x) == x % Two31
  {
  }

  /** One step of `h += (h << 5) + ord(c)`; `h << 5` is `h * 32` on Python integers. */
  function GtkStep(h: int, c: char): int {
    h + h * 32 + c as int
  }

  /** The unbounded accumulator of `get_gtk` after the characters of `s`. */
  function GtkFold(s: string, seed: int): int
    decreases |s|
  {
    if |s| == 0 then seed else GtkStep(GtkFold(s[..|s| - 1], seed), s[|s| - 1])
  }

  /** `Util.get_gtk(p_skey, h)`: the accumulator runs on unbounded integers and only
      the final value is masked to 31 bits. */
  method GetGtk(pSkey: string, seed: int) returns (r: int)
    ensures r == And31(GtkFold(pSkey, seed))
    ensures 0 <= r < Two31
  {
    var h := seed;
    for i := 0 to |pSkey|
      invariant h == GtkFold(pSkey[..i], seed)
    {
      assert pSkey[..i + 1][..i] == pSkey[..i];
      h := h + h * 32 + pSkey[i] as int;
    }
    assert pSkey[..|pSkey|] == pSkey;
    r := And31(h);
  }

  /** With the default seed, the empty key hashes to 5381. */
  lemma GtkOfEmpty()
    ensures And31(GtkFold("", GtkSeed)) == 5381
  {
  }

  // ---------------------------------------------------------------------------
  // get_qr_token
  // ---------------------------------------------------------------------------

  /** One step of `hash += ((hash << 5) & M) + ord(c) & M; hash &= M`, where `+`
      binds tighter than `&`, so the right-hand side is `(((hash << 5) & M) + ord(c)) & M`. */
  function QrStep(h: int, c: char): int {
    And31(h + And31(And31(h * 32) + c as int))
  }

  function QrFold(s: string): int
    decreases |s|
  {
    if |s| == 0 then 0 else QrStep(QrFold(s[..|s| - 1]), s[|s| - 1])
  }

  /** `Util.get_qr_token(qrsig)` */
  method GetQrToken(qrsig: string) returns (r: int)
    ensures r == QrFold(qrsig)
    ensures 0 <= r < Two31
    ensures qrsig == "" ==> r == 0
  {
    if qrsig == "" {
      return 0;
    }
    var hash := 0;
    for i := 0 to |qrsig|
      invariant hash == QrFold(qrsig[..i])
      invariant 0 <= hash < Two31
    {
      assert qrsig[..i + 1][..i] == qrsig[..i];
      hash := hash + And31(And31(hash * 32) + qrsig[i] as int);
      hash := And31(hash);
    }
    assert qrsig[..|qrsig|] == qrsig;
    r := And31(hash);
  }

  lemma ModSum(a: int, b: int, m: int)
    requires m > 0
    ensures (a % m + b) % m == (a + b) % m
    ensures (a + b % m) % m == (a + b) % m
  {
    ModOfDecomposition(a, m, a / m, a % m);
    ModOfDecomposition(b, m, b / m, b % m);
    var r := (a + b) % m;
    ModOfDecomposition(a + b, m, (a + b) / m, r);
    ModOfDecomposition(a % m + b, m, (a + b) / m - a / m, r);
    ModOfDecomposition(a + b % m, m, (a + b) / m - b / m, r);
  }

  lemma ModScale(a: int, k: int, m: int)
    requires m > 0
    ensures (k * (a % m)) % m == (k * a) % m
  {
    var q := a / m;
    ModOfDecomposition(a, m, q, a % m);
    assert k * a == k * q * m + k * (a % m);
    var r := (k * (a % m)) % m;
    ModOfDecomposition(k * (a % m), m, (k * (a % m)) / m, r);
    ModOfDecomposition(k * a, m, k * q + (k * (a % m)) / m, r);
  }

  /** The masked step agrees with the unmasked one modulo 2^31. */
  lemma QrStepIsGtkStep(h: int, c: char)
    ensures QrStep(h, c) == And31(GtkStep(h, c))
  {
    var m := Two31;
    var c' := c as int;
    var a := And31(h * 32);
    And31IsMod(h * 32);
    ModSum(h * 32, c', m);
    var b := And31(a + c');
    And31IsMod(a + c');
    assert b == (h * 32 + c') % m;
    ModSum(h, h * 32 + c', m);
    And31IsMod(h + b);
    And31IsMod(GtkStep(h, c));
    assert QrStep(h, c) == (h + b) % m;
  }

  /** `get_qr_token(s)` equals `get_gtk(s, 0)`: masking after every step or only at
      the end gives the same 31 bits. */
  lemma {:induction false} QrTokenIsGtkFromZero(s: string)
    ensures QrFold(s) == And31(GtkFold(s, 0))
    decreases |s|
  {
    if |s| > 0 {
      var pre := s[..|s| - 1];
      var c := s[|s| - 1];
      QrTokenIsGtkFromZero(pre);
      var g := GtkFold(pre, 0);
      QrStepIsGtkStep(And31(g), c);
      // 33 * (g mod m) + c and 33 * g + c agree modulo m
      ModScale(g, 33, Two31);
      ModSum(33 * (g % Two31), c as int, Two31);
      ModSum(33 * g, c as int, Two31);
      assert GtkStep(And31(g), c) == 33 * (g % Two31) + c as int;
      assert GtkStep(g, c) == 33 * g + c as int;
    }
  }

  // ---------------------------------------------------------------------------
  // trans_num_easy_for_read
  // ---------------------------------------------------------------------------

  /** `n / unit` rounded to the nearest tenth, as a count of tenths (ties upward). */
  function TenthsOf(n: nat, unit: nat): nat
    requires unit > 0 && unit % 2 == 0
  {
    (n + unit / 2) / unit
  }

  function ShowTenths(t: nat): string {
    NatToString(t / 10) + "." + [DigitChar(t % 10)]
  }

  /** `Util.trans_num_easy_for_read(num)` for an integer `num`. */
  function TransNum(n: int): string {
    if n < 1000 then IntToString(n)
    else if n < 1000000 then ShowTenths(TenthsOf(n, 100)) + "K"
    else ShowTenths(TenthsOf(n, 100000)) + "M"
  }

  /** `Util.trans_num_easy_for_read(num)` for a string `num`, parsed by `int()` first;
      `None` where `int()` raises. */
  function TransNumText(s: string): (r: Option<string>)
    ensures r.Some? <==> ParseInt(s).Some?
    ensures r.Some? ==> r.value == TransNum(ParseInt(s).value)
  {
    match ParseInt(s)
    case Some(n) => Some(TransNum(n))
    case None => None
  }

  /** The three size bands. */
  lemma TransNumBands(n: int)
    ensures n < 1000 ==> TransNum(n) == IntToString(n) && ParseInt(TransNum(n)) == Some(n)
    ensures 1000 <= n < 1000000 ==> TransNum(n)[|TransNum(n)| - 1] == 'K'
    ensures n >= 1000000 ==> TransNum(n)[|TransNum(n)| - 1] == 'M'
  {
    if n < 1000 {
      IntToStringRoundTrip(n);
    }
  }

  /** The figure shown is `n / unit` to the nearest tenth: the tenths count `t` it
      displays satisfies `|t * unit - n| <= unit / 2`. */
  lemma {:induction false} TransNumIsNearestTenth(n: int)
    requires n >= 1000
    ensures var unit := if n < 1000000 then 100 else 100000;
            var t := TenthsOf(n, unit);
            && TransNum(n) == NatToString(t / 10) + "." + [DigitChar(t % 10)]
                              + (if n < 1000000 then "K" else "M")
            && n - unit / 2 < t * unit <= n + unit / 2
  {
    var unit := if n < 1000000 then 100 else 100000;
    var t := TenthsOf(n, unit);
    ModOfDecomposition(n + unit / 2, unit, t, (n + unit / 2) % unit);
  }

  lemma DivOfMultiple(n: nat, unit: nat)
    requires unit > 0 && n % unit == 0
    ensures (n / unit) / 10 == n / (10 * unit)
  {
    var k := n / unit;
    ModOfDecomposition(n, unit, k, 0);
    ModOfDecomposition(k, 10, k / 10, k % 10);
    assert n == (k / 10) * (10 * unit) + (k % 10) * unit;
    ModOfDecomposition(n, 10 * unit, k / 10, (k % 10) * unit);
  }

  /** Exact multiples of 100 (K band) and of 100000 (M band) show their exact value:
      1500 shows as "1.5K", 2300000 as "2.3M". */
  lemma TransNumExact(n: int)
    requires (1000 <= n < 1000000 && n % 100 == 0) || (n >= 1000000 && n % 100000 == 0)
    ensures 1000 <= n < 1000000 ==>
      TransNum(n) == NatToString(n / 1000) + "." + NatToString((n / 100) % 10) + "K"
    ensures n >= 1000000 ==>
      TransNum(n) == NatToString(n / 1000000) + "." + NatToString((n / 100000) % 10) + "M"
  {
    var unit := if n < 1000000 then 100 else 100000;
    ModOfDecomposition(n + unit / 2, unit, n / unit, unit / 2);
    assert TenthsOf(n, unit) == n / unit;
    DivOfMultiple(n, unit);
  }

  lemma TransNumExamples()
    ensures TransNum(999) == "999"
    ensures TransNum(1500) == "1.5K"
    ensures TransNum(2300000) == "2.3M"
  {
    TransNumExact(1500);
    TransNumExact(2300000);
  }

  // ---------------------------------------------------------------------------
  // seconds_to_duration
  // ---------------------------------------------------------------------------

  /** `Util.seconds_to_duration(seconds)` for an integer. */
  function SecondsToDuration(seconds: int): string {
    if seconds <= 0 then "已完成"
    else
      var hours := seconds / 3600;
      var minutes := (seconds % 3600) / 60;
      var second := seconds % 60;
      if hours > 0 then
        if minutes > 0 then IntToString(hours) + "h" + IntToString(minutes) + "m"
        else IntToString(hours) + "h"
      else
        if minutes > 0 then IntToString(minutes) + "m" + IntToString(second) + "s"
        else IntToString(second) + "s"
  }

  /** `Util.seconds_to_duration(seconds)` for a string, parsed by `int()` first. */
  function SecondsToDurationText(s: string): (r: Option<string>)
    ensures r.Some? <==> ParseInt(s).Some?
    ensures r.Some? ==> r.value == SecondsToDuration(ParseInt(s).value)
  {
    match ParseInt(s)
    case Some(n) => Some(SecondsToDuration(n))
    case None => None
  }

  /** The text names hours h, minutes m and seconds sec with
      `seconds == 3600 h + 60 m + sec`, shows h only when positive, shows m when
      positive, and shows sec exactly when there are no whole hours. */
  lemma DurationParts(seconds: int)
    requires seconds > 0
    ensures var h, m, sec := seconds / 3600, (seconds % 3600) / 60, seconds % 60;
      && 0 <= h && 0 <= m < 60 && 0 <= sec < 60 && seconds == 3600 * h + 60 * m + sec
      && SecondsToDuration(seconds) ==
           (if h > 0 then NatToString(h) + "h" else "")
           + (if m > 0 then NatToString(m) + "m" else "")
           + (if h == 0 then NatToString(sec) + "s" else "")
  {
    var h := seconds / 3600;
    var m := (seconds % 3600) / 60;
    var sec := seconds % 60;
    ModOfDecomposition(seconds % 3600, 60, m, (seconds % 3600) % 60);
    ModOfDecomposition(seconds, 3600, h, seconds % 3600);
    assert seconds == 3600 * h + 60 * m + (seconds % 3600) % 60;
    ModOfDecomposition(seconds, 60, 60 * h + m, (seconds % 3600) % 60);
    assert seconds == 3600 * h + 60 * m + sec;
    QuotientBelow(seconds % 3600, 60, 60);
    assert m < 60 && sec < 60;
    assert SecondsToDuration(seconds) ==
           (if h > 0 then NatToString(h) + "h" else "")
           + (if m > 0 then NatToString(m) + "m" else "")
           + (if h == 0 then NatToString(sec) + "s" else "");
  }

  lemma DurationNonPositive(seconds: int)
    requires seconds <= 0
    ensures SecondsToDuration(seconds) == "已完成"
  {
  }

  // ---------------------------------------------------------------------------
  // get_rank_by_score_sol / get_rank_by_score_tdm
  // ---------------------------------------------------------------------------

  /** One row of `rank_params`: (rank_name, sub_ranks, start_score, interval, stars_per_sub). */
  datatype Tier = Tier(name: string, subRanks: nat, start: int, interval: nat, starsPerSub: nat)

  function TierEnd(t: Tier): int {
    t.start + t.subRanks * t.interval
  }

  const SolTiers: seq<Tier> := [
    Tier("青铜", 3, 1000, 150, 3),
    Tier("白银", 3, 1450, 150, 3),
    Tier("黄金", 4, 1900, 200, 4),
    Tier("铂金", 4, 2700, 200, 4),
    Tier("钻石", 5, 3500, 250, 5),
    Tier("黑鹰", 5, 4750, 250, 5)
  ]

  const TdmTiers: seq<Tier> := [
    Tier("列兵", 3, 1000, 150, 3),
    Tier("上等兵", 3, 1450, 150, 3),
    Tier("军士长", 4, 1900, 200, 4),
    Tier("尉官", 4, 2700, 200, 4),
    Tier("校官", 5, 3500, 250, 5),
    Tier("将军", 5, 4750, 250, 5)
  ]

  const SolPeak: string := "三角洲巅峰"
  const TdmPeak: string := "统帅"

  datatype Rank = Unranked | Ranked(name: string, subRank: int, stars: int) | Peak(title: string, stars: int)

  function RankText(r: Rank): string {
    match r
    case Unranked => "无段位"
    case Ranked(name, sub, stars) => name + IntToString(sub) + "★" + IntToString(stars)
    case Peak(title, stars) => title + "⭐" + IntToString(stars)
  }

  predicate PositiveIntervals(tiers: seq<Tier>) {
    forall i :: 0 <= i < |tiers| ==> tiers[i].interval > 0
  }

  /** The first tier (from index k on) whose end lies above the score. */
  function FirstTierAbove(score: int, tiers: seq<Tier>, k: nat): (r: Option<nat>)
    requires k <= |tiers|
    ensures r.Some? ==> k <= r.value < |tiers| && score < TierEnd(tiers[r.value])
    ensures r.Some? ==> forall j :: k <= j < r.value ==> score >= TierEnd(tiers[j])
    ensures r.None? ==> forall j :: k <= j < |tiers| ==> score >= TierEnd(tiers[j])
    decreases |tiers| - k
  {
    if k == |tiers| then None
    else if score < TierEnd(tiers[k]) then Some(k)
    else FirstTierAbove(score, tiers, k + 1)
  }

  /** The rank the loop of `get_rank_by_score_*` settles on, in the tier it stops at. */
  function RankIn(score: int, t: Tier): Rank
    requires t.interval > 0
  {
    var sub := t.subRanks - (score - t.start) / t.interval;
    var sub' := if sub > 1 then sub else 1;
    var inSub := score - (t.start + (t.subRanks - sub') * t.interval);
    Ranked(t.name, sub', inSub / 50 + 1)
  }

  /** The rank for a score, given a tier table and the peak label. */
  function RankOf(score: int, tiers: seq<Tier>, peak: string): Rank
    requires PositiveIntervals(tiers)
  {
    if score <= 1000 then Unranked
    else match FirstTierAbove(score, tiers, 0)
      case Some(i) => RankIn(score, tiers[i])
      case None => Peak(peak, (score - 6000) / 50)
  }

  /** The loop shared by both rank functions. */
  method RankByScore(score: int, tiers: seq<Tier>, peak: string) returns (text: string)
    requires PositiveIntervals(tiers)
    ensures text == RankText(RankOf(score, tiers, peak))
  {
    if score <= 1000 {
      return "无段位";
    }
    for i := 0 to |tiers|
      invariant FirstTierAbove(score, tiers, 0) == FirstTierAbove(score, tiers, i)
    {
      var t := tiers[i];
      var startScore := t.start;
      var maxScore := startScore + t.subRanks * t.interval;
      if score < maxScore {
        var subRank := t.subRanks - (score - startScore) / t.interval;
        subRank := if subRank > 1 then subRank else 1;
        var scoreInSub := score - (startScore + (t.subRanks - subRank) * t.interval);
        var stars := scoreInSub / 50 + 1;
        return t.name + IntToString(subRank) + "★" + IntToString(stars);
      }
    }
    var stars := (score - 6000) / 50;
    text := peak + "⭐" + IntToString(stars);
  }

  /** `Util.get_rank_by_score_sol(score)` */
  method GetRankByScoreSol(score: int) returns (text: string)
    ensures text == RankText(RankOf(score, SolTiers, SolPeak))
  {
    text := RankByScore(score, SolTiers, SolPeak);
  }

  /** `Util.get_rank_by_score_tdm(score)` */
  method GetRankByScoreTdm(score: int) returns (text: string)
    ensures text == RankText(RankOf(score, TdmTiers, TdmPeak))
  {
    text := RankByScore(score, TdmTiers, TdmPeak);
  }

  /** A table whose tiers follow one another from 1000 up to 6000, each sub-rank
      worth `50 * stars_per_sub` points. */
  predicate ContiguousTiers(tiers: seq<Tier>) {
    && |tiers| > 0
    && tiers[0].start == 1000
    && TierEnd(tiers[|tiers| - 1]) == 6000
    && (forall i :: 0 <= i < |tiers| ==>
          tiers[i].subRanks >= 1 && tiers[i].starsPerSub >= 1 && tiers[i].interval == 50 * tiers[i].starsPerSub)
    && (forall i :: 0 < i < |tiers| ==> tiers[i].start == TierEnd(tiers[i - 1]))
  }

  lemma SolTiersContiguous()
    ensures ContiguousTiers(SolTiers) && PositiveIntervals(SolTiers)
  {
  }

  lemma TdmTiersContiguous()
    ensures ContiguousTiers(TdmTiers) && PositiveIntervals(TdmTiers)
  {
  }

  lemma {:induction false} TierEndsIncrease(tiers: seq<Tier>, i: nat, j: nat)
    requires ContiguousTiers(tiers)
    requires i <= j < |tiers|
    ensures TierEnd(tiers[i]) <= TierEnd(tiers[j])
    decreases j - i
  {
    if i < j {
      TierEndsIncrease(tiers, i, j - 1);
      assert tiers[j].start == TierEnd(tiers[j - 1]);
    }
  }

  /** For a contiguous table: scores up to 1000 are unranked, scores from 6000 on
      earn a peak star per 50 points, and every score in between falls in the one
      tier whose band holds it, at sub-rank 1..sub_ranks and star 1..stars_per_sub,
      with `score == start + (sub_ranks - sub) * interval + 50 * (stars - 1) + rest`
      for some `0 <= rest < 50`. */
  lemma {:induction false} RankBands(score: int, tiers: seq<Tier>, peak: string)
    requires ContiguousTiers(tiers)
    ensures PositiveIntervals(tiers)
    ensures score <= 1000 ==> RankOf(score, tiers, peak) == Unranked
    ensures score >= 6000 ==> RankOf(score, tiers, peak) == Peak(peak, (score - 6000) / 50)
    ensures 1000 < score < 6000 ==>
      exists i :: 0 <= i < |tiers| && tiers[i].start <= score < TierEnd(tiers[i])
        && RankOf(score, tiers, peak).Ranked?
        && RankOf(score, tiers, peak).name == tiers[i].name
        && 1 <= RankOf(score, tiers, peak).subRank <= tiers[i].subRanks
        && 1 <= RankOf(score, tiers, peak).stars <= tiers[i].starsPerSub
        && 0 <= score - (tiers[i].start
                         + (tiers[i].subRanks - RankOf(score, tiers, peak).subRank) * tiers[i].interval
                         + 50 * (RankOf(score, tiers, peak).stars - 1)) < 50
  {
    if score >= 6000 {
      var last := |tiers| - 1;
      forall j | 0 <= j < |tiers| ensures score >= TierEnd(tiers[j]) {
        TierEndsIncrease(tiers, j, last);
      }
      assert FirstTierAbove(score, tiers, 0).None?;
    } else if score > 1000 {
      var last := |tiers| - 1;
      assert score < TierEnd(tiers[last]);
      var found := FirstTierAbove(score, tiers, 0);
      assert found.Some?;
      var i := found.value;
      var t := tiers[i];
      assert t.start <= score by {
        if i > 0 {
          assert score >= TierEnd(tiers[i - 1]);
        }
      }
      RankInBounds(score, t);
    }
  }

  lemma QuotientBelow(x: int, d: int, n: int)
    requires d > 0 && 0 <= x && x < n * d
    ensures 0 <= x / d < n
  {
    DivModParts(x, d);
    if x / d >= n {
      MulMonotone(x / d, n, d);
    }
  }

  lemma MulMonotone(a: int, b: int, d: int)
    requires a >= b && d > 0
    ensures a * d >= b * d
  {
    assert a * d - b * d == (a - b) * d;
  }

  lemma RankInBounds(score: int, t: Tier)
    requires t.subRanks >= 1 && t.starsPerSub >= 1 && t.interval == 50 * t.starsPerSub
    requires t.start <= score < TierEnd(t)
    ensures RankIn(score, t).Ranked?
    ensures 1 <= RankIn(score, t).subRank <= t.subRanks
    ensures 1 <= RankIn(score, t).stars <= t.starsPerSub
    ensures 0 <= score - (t.start + (t.subRanks - RankIn(score, t).subRank) * t.interval
                          + 50 * (RankIn(score, t).stars - 1)) < 50
  {
    var x := score - t.start;
    var q := x / t.interval;
    QuotientBelow(x, t.interval, t.subRanks);
    DivModParts(x, t.interval);
    var sub := t.subRanks - q;
    assert RankIn(score, t).subRank == sub;
    var inSub := score - (t.start + (t.subRanks - sub) * t.interval);
    assert inSub == x % t.interval;
    QuotientBelow(inSub, 50, t.starsPerSub);
    DivModParts(inSub, 50);
    assert RankIn(score, t).stars == inSub / 50 + 1;
  }

  // ---------------------------------------------------------------------------
  // get_Sunday_date (the offset arithmetic)
  // ---------------------------------------------------------------------------

  /** `days_to_last_sunday` for `weekday` (0 = Monday .. 6 = Sunday) and `which_week`. */
  function DaysToLastSunday(weekday: int, whichWeek: int): int
    requires 0 <= weekday <= 6
  {
    if weekday == 6 then 7 * whichWeek else (weekday + 1) + 7 * (whichWeek - 1)
  }

  /** Going back `days` days from `weekday` lands on a Sunday (weekday 6). */
  predicate LandsOnSunday(weekday: int, days: int) {
    (weekday - days) % 7 == 6
  }

  /** For `which_week >= 1` the offset lands on a Sunday in the `which_week`-th
      week back, `7 (which_week - 1) < days <= 7 which_week`, and it is the only
      offset in that window that does; for `which_week = 1` it is between 1 and 7. */
  lemma SundayOffset(weekday: int, whichWeek: int)
    requires 0 <= weekday <= 6 && whichWeek >= 1
    ensures var days := DaysToLastSunday(weekday, whichWeek);
      && days >= 1
      && LandsOnSunday(weekday, days)
      && 7 * (whichWeek - 1) < days <= 7 * whichWeek
      && (whichWeek == 1 ==> 1 <= days <= 7)
      && forall d :: 7 * (whichWeek - 1) < d <= 7 * whichWeek && LandsOnSunday(weekday, d) ==> d == days
  {
    var days := DaysToLastSunday(weekday, whichWeek);
    var w := whichWeek;
    ModOfDecomposition(weekday - days, 7, -w, 6);
    forall d | 7 * (w - 1) < d <= 7 * w && LandsOnSunday(weekday, d)
      ensures d == days
    {
      var q := (weekday - d) / 7;
      ModOfDecomposition(weekday - d, 7, q, (weekday - d) % 7);
      var k := q + w;
      // weekday - d - 6 == 7 (k - w) lies in [-6 - 7w, 6 - 7w), so k == 0
      assert (weekday - d - 6) == 7 * (k - w);
      assert -13 < 7 * k - 6 <= 0 && 0 <= 7 * k ;
      assert k == 0;
    }
  }

  // ---------------------------------------------------------------------------
  // parse_api_response, build_game_params, create_cookie
  // ---------------------------------------------------------------------------

  /** A decoded JSON value. */
  datatype Value = Null | Bool(b: bool) | Int(i: int) | Str(s: string)
                 | Obj(fields: map<string, Value>) | Arr(items: seq<Value>)

  /** `d.get(k, default)` */
  function Get(d: map<string, Value>, k: string, default: Value): Value {
    if k in d then d[k] else default
  }

  /** Python's `v == 0`: true for the integer 0 and for `False`. */
  predicate EqualsZero(v: Value) {
    v == Int(0) || v == Bool(false)
  }

  /** `str(v)` for scalar values; containers show a placeholder. */
  function Display(v: Value): string {
    match v
    case Null => "None"
    case Bool(b) => if b then "True" else "False"
    case Int(i) => IntToString(i)
    case Str(s) => s
    case Obj(_) => "{...}"
    case Arr(_) => "[...]"
  }

  datatype ApiResponse = ApiResponse(status: bool, message: string, data: Value)

  const EmptyObj: Value := Obj(map[])

  /** `Util.parse_api_response(data, success_key, data_key)`; `None` where
      `.get("data", {})` is applied to something that is not a dict and raises. */
  function ParseApiResponse(data: map<string, Value>, successKey: string, dataKey: string): (r: Option<ApiResponse>)
    ensures var ret := Get(data, successKey, Int(-1));
      && (r.Some? && r.value.status <==> EqualsZero(ret) && Get(data, dataKey, EmptyObj).Obj?)
      && (!EqualsZero(ret) ==> r == Some(ApiResponse(false, "请求失败，错误码: " + Display(ret), EmptyObj)))
      && (r.None? <==> EqualsZero(ret) && !Get(data, dataKey, EmptyObj).Obj?)
      && (r.Some? && r.value.status ==>
            r.value.message == "获取成功"
            && r.value.data == Get(Get(data, dataKey, EmptyObj).fields, "data", EmptyObj))
  {
    var ret := Get(data, successKey, Int(-1));
    if EqualsZero(ret) then
      match Get(data, dataKey, EmptyObj)
      case Obj(inner) => Some(ApiResponse(true, "获取成功", Get(inner, "data", EmptyObj)))
      case _ => None
    else
      Some(ApiResponse(false, "请求失败，错误码: " + Display(ret), EmptyObj))
  }

  /** A missing status key counts as -1, which is a failure. */
  lemma ParseMissingKeyFails(data: map<string, Value>, successKey: string, dataKey: string)
    requires successKey !in data
    ensures ParseApiResponse(data, successKey, dataKey)
         == Some(ApiResponse(false, "请求失败，错误码: -1", EmptyObj))
  {
    var ret := Get(data, successKey, Int(-1));
    assert ret == Int(-1) && !EqualsZero(ret);
    assert Display(ret) == "-1";
    assert "请求失败，错误码: " + "-1" == "请求失败，错误码: -1";
  }

  /** `Util.build_game_params(chart_id, sub_chart_id, token, method, **extra)`:
      the three base keys, `method` only when non-empty, then `extra` on top. */
  function BuildGameParams(chartId: int, subChartId: int, token: string, apiMethod: string,
                           extra: map<string, Value>): (r: map<string, Value>)
    ensures r.Keys == {"iChartId", "iSubChartId", "sIdeToken"}
                      + (if apiMethod != "" then {"method"} else {}) + extra.Keys
    ensures forall k :: k in extra ==> r[k] == extra[k]
    ensures "iChartId" !in extra ==> r["iChartId"] == Int(chartId)
    ensures "iSubChartId" !in extra ==> r["iSubChartId"] == Int(subChartId)
    ensures "sIdeToken" !in extra ==> r["sIdeToken"] == Str(token)
    ensures "method" !in extra ==> ("method" in r <==> apiMethod != "")
    ensures "method" !in extra && apiMethod != "" ==> r["method"] == Str(apiMethod)
  {
    var base := map["iChartId" := Int(chartId), "iSubChartId" := Int(subChartId), "sIdeToken" := Str(token)];
    var withMethod := if apiMethod != "" then base["method" := Str(apiMethod)] else base;
    withMethod + extra
  }

  const AppId: string := "101491592"

  /** `Util.create_cookie(openid, access_token, is_qq)` */
  function CreateCookie(openid: string, accessToken: string, isQq: bool): (r: map<string, string>)
    ensures r.Keys == {"openid", "access_token", "acctype", "appid"}
    ensures r["openid"] == openid && r["access_token"] == accessToken && r["appid"] == AppId
    ensures r["acctype"] == (if isQq then "qc" else "wx")
  {
    map["openid" := openid, "access_token" := accessToken,
        "acctype" := (if isQq then "qc" else "wx"), "appid" := AppId]
  }

  /** The credentials a cookie carries, read back: `None` unless it has the four
      keys, this app's id and one of the two account types. */
  function CookieCredentials(c: map<string, string>): Option<(string, string, bool)> {
    if "openid" in c && "access_token" in c && "acctype" in c && "appid" in c
       && c["appid"] == AppId && (c["acctype"] == "qc" || c["acctype"] == "wx")
    then Some((c["openid"], c["access_token"], c["acctype"] == "qc"))
    else None
  }

  /** A cookie gives back the openid, the token and the platform it was made from. */
  lemma CookieRoundTrip(openid: string, accessToken: string, isQq: bool)
    ensures CookieCredentials(CreateCookie(openid, accessToken, isQq)) == Some((openid, accessToken, isQq))
  {
  }

  /** Different credentials, or the other platform, give a different cookie. */
  lemma CookieInjective(openid: string, accessToken: string, isQq: bool,
                        openid': string, accessToken': string, isQq': bool)
    ensures CreateCookie(openid, accessToken, isQq) == CreateCookie(openid', accessToken', isQq')
            <==> openid == openid' && accessToken == accessToken' && isQq == isQq'
  {
    if CreateCookie(openid, accessToken, isQq) == CreateCookie(openid', accessToken', isQq') {
      CookieRoundTrip(openid, accessToken, isQq);
      CookieRoundTrip(openid', accessToken', isQq');
    }
  }

  // ---------------------------------------------------------------------------
  // Lookup tables
  // ---------------------------------------------------------------------------

  /** A field the backend sends either as a number or as a string. */
  datatype IntOrText = AnInt(i: int) | AText(s: string)

  const MapNames: map<string, string> := map[
    "2231" := "零号大坝-前夜", "2232" := "零号大坝-永夜", "2201" := "零号大坝-常规",
    "2202" := "零号大坝-机密", "1901" := "长弓溪谷-常规", "1902" := "长弓溪谷-机密",
    "1912" := "长弓溪谷-机密(单排模式)", "3901" := "航天基地-机密", "3902" := "航天基地-绝密",
    "8102" := "巴克什-机密", "8103" := "巴克什-绝密", "8803" := "潮汐监狱-绝密",
    "2212" := "零号大坝-机密(单排模式)", "34" := "烬区-占领", "33" := "烬区-攻防",
    "54" := "攀升-攻防", "75" := "临界点-攻防", "103" := "攀升-占领",
    "107" := "沟壕战-攻防", "108" := "沟壕战-占领", "111" := "断轨-攻防",
    "112" := "断轨-占领", "113" := "贯穿-攻防", "114" := "贯穿-占领",
    "117" := "攀升-钢铁洪流", "121" := "刀锋-攻防", "122" := "刀锋-占领",
    "210" := "临界点-占领", "227" := "沟壕战-钢铁洪流", "302" := "风暴眼-攻防",
    "303" := "风暴眼-占领", "516" := "沟壕战-霰弹风暴", "517" := "攀升-霰弹风暴",
    "526" := "断轨-钢铁洪流"
  ]

  function KeyText(k: IntOrText): string {
    match k
    case AnInt(i) => IntToString(i)
    case AText(s) => s
  }

  /** `Util.get_map_name(map_id)` */
  function MapName(mapId: IntOrText): (r: string)
    ensures KeyText(mapId) in MapNames ==> r == MapNames[KeyText(mapId)]
    ensures KeyText(mapId) !in MapNames ==> r == UnknownMap + KeyText(mapId)
  {
    var key := KeyText(mapId);
    if key in MapNames then MapNames[key] else UnknownMap + key
  }

  const UnknownMap: string := "未知地图"

  /** No map name in the table starts like the fallback text. */
  lemma MapNamesNotUnknown()
    ensures forall k :: k in MapNames ==> MapNames[k] != [] && MapNames[k][0] != UnknownMap[0]
  {
  }

  /** The name is a table name exactly when the id is in the table. */
  lemma MapNameKnown(mapId: IntOrText)
    ensures MapName(mapId) in MapNames.Values <==> KeyText(mapId) in MapNames
  {
    var r := MapName(mapId);
    if KeyText(mapId) !in MapNames {
      MapNamesNotUnknown();
      assert r[0] == UnknownMap[0];
      assert forall k :: k in MapNames ==> MapNames[k] != r;
    }
  }

  /** An unknown id is named apart from every other id: its name gives the id back. */
  lemma MapNameOfUnknown(mapId: IntOrText, other: IntOrText)
    requires KeyText(mapId) !in MapNames
    ensures MapName(mapId) == MapName(other) <==> KeyText(mapId) == KeyText(other)
  {
    if MapName(mapId) == MapName(other) {
      MapNameKnown(mapId);
      MapNameKnown(other);
      var u := UnknownMap + KeyText(mapId);
      var v := UnknownMap + KeyText(other);
      assert u[|UnknownMap|..] == KeyText(mapId);
      assert v[|UnknownMap|..] == KeyText(other);
    }
  }

  /** A number and its decimal text name the same map. */
  lemma MapNameOfText(n: int)
    ensures MapName(AText(IntToString(n))) == MapName(AnInt(n))
  {
  }

  const ArmedForceNames: map<int, string> := map[
    30009 := "乌鲁鲁", 10010 := "威龙", 10011 := "无名", 30010 := "深蓝",
    30008 := "牧羊人", 10012 := "疾风", 10007 := "红狼", 20004 := "蛊",
    20003 := "蜂医", 40005 := "露娜", 40010 := "骇爪", 40011 := "银翼"
  ]

  /** `int(x)` on a number-or-string field; `None` where it raises. */
  function AsInt(k: IntOrText): Option<int> {
    match k
    case AnInt(i) => Some(i)
    case AText(s) => ParseInt(s)
  }

  /** `Util.get_armed_force_name(armed_force_id)`; `None` where `int()` raises. */
  function ArmedForceName(armedForceId: IntOrText): (r: Option<string>)
    ensures r.Some? <==> AsInt(armedForceId).Some?
    ensures r.Some? ==> r.value == (if AsInt(armedForceId).value in ArmedForceNames
                                    then ArmedForceNames[AsInt(armedForceId).value] else "未知干员")
  {
    match AsInt(armedForceId)
    case Some(id) => Some(if id in ArmedForceNames then ArmedForceNames[id] else "未知干员")
    case None => None
  }

  /** `Util.get_tdm_match_result(result)`; `None` where `int()` raises. */
  function TdmMatchResult(result: IntOrText): (r: Option<string>)
    ensures r.Some? <==> AsInt(result).Some?
    ensures r.Some? ==> var n := AsInt(result).value;
      r.value == (if n == 1 then "胜利" else if n == 2 then "失败" else if n == 3 then "中途退出"
                  else "未知结果" + IntToString(n))
  {
    match AsInt(result)
    case Some(n) =>
      Some(if n == 1 then "胜利" else if n == 2 then "失败" else if n == 3 then "中途退出"
           else "未知结果" + IntToString(n))
    case None => None
  }

  /** `int(str(n)) == n`, so a number and its decimal text convert alike. */
  lemma AsIntOfText(n: int)
    ensures AsInt(AText(IntToString(n))) == AsInt(AnInt(n))
  {
    IntToStringRoundTrip(n);
  }

  /** A number and its decimal text look up the same operator name. */
  lemma ArmedForceNameOfText(n: int)
    ensures ArmedForceName(AText(IntToString(n))) == ArmedForceName(AnInt(n))
  {
    AsIntOfText(n);
  }

  /** A number and its decimal text give the same match result. */
  lemma TdmMatchResultOfText(n: int)
    ensures TdmMatchResult(AText(IntToString(n))) == TdmMatchResult(AnInt(n))
  {
    AsIntOfText(n);
    TdmMatchResultByInt(AText(IntToString(n)), AnInt(n));
  }

  lemma TdmMatchResultByInt(a: IntOrText, b: IntOrText)
    requires AsInt(a) == AsInt(b)
    ensures TdmMatchResult(a) == TdmMatchResult(b)
  {
  }
}
