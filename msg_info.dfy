/**
 * The record and special-office queries of `MsgInfo` (`Delta_user/msg_info.py`):
 * the argument parser of `get_record`, the two record listings (extraction
 * modes and battlefield), and `get_tqc`, the special-office device status.
 * The game API is a value of type `RecordApi` fixed in advance; every request
 * sent to it is appended to the `calls` log of the `MsgInfo` object.
 */
module RecordQuery {
  import opened Text
  import opened DeltaUtil
  import opened DeltaLogin

  const NotBoundText := "未绑定三角洲账号，请先用\"三角洲登录\"命令登录"
  const TooManyText := "参数过多"
  const BadArgText := "参数错误"
  const UsageText := "请输入正确参数，格式：三角洲战绩 [模式] [页码] L[战绩条数上限]"
  const PlayerFailText := "获取玩家信息失败，可能需要重新登录"
  const RecordFailText := "获取战绩失败，可能需要重新登录"
  const NoRecordsText := "本页没有战绩"
  const NoDeviceText := "特勤处状态获取成功，但没有数据"

  // ---------------------------------------------------------------------
  // Arguments: [mode] [page] L[limit], defaults mode 4, page 1, limit 50
  // ---------------------------------------------------------------------

  datatype Query = Query(typeId: int, page: int, lineLimit: int)

  const DefaultQuery := Query(4, 1, 50)

  /** The parser's variables between two tokens. */
  datatype Scan = Scan(q: Query, seenPage: bool, seenMode: bool, seenLimit: bool)

  const InitScan := Scan(DefaultQuery, false, false, false)

  datatype Step = Next(sc: Scan) | Stop(message: string)

  datatype ArgResult = Args(q: Query) | ArgError(message: string)

  predicate IsLimitToken(token: string) {
    StartsWith(token, "L") || StartsWith(token, "l")
  }

  predicate IsGunMode(token: string) {
    token == "烽火" || token == "烽火行动"
  }

  predicate IsBattleMode(token: string) {
    token == "战场" || token == "大战场" || token == "全面战场"
  }

  /** One pass of the token loop. */
  function TokenStep(sc: Scan, token: string): Step {
    if IsLimitToken(token) then
      if sc.seenLimit then Stop(TooManyText)
      else if !IsDigits(token[1..]) then Stop(BadArgText)
      else if DigitsValue(token[1..]) <= 0 then Stop(BadArgText)
      else Next(sc.(q := sc.q.(lineLimit := DigitsValue(token[1..])), seenLimit := true))
    else if IsGunMode(token) then
      if sc.seenMode then Stop(TooManyText) else Next(sc.(q := sc.q.(typeId := 4), seenMode := true))
    else if IsBattleMode(token) then
      if sc.seenMode then Stop(TooManyText) else Next(sc.(q := sc.q.(typeId := 5), seenMode := true))
    else
      match ParseInt(token)
      case None => Stop(UsageText)
      case Some(v) =>
        if v <= 0 then Stop(BadArgText)
        else if sc.seenPage then Stop(TooManyText)
        else Next(sc.(q := sc.q.(page := v), seenPage := true))
  }

  /** The token loop: the first token that stops it decides the reply. */
  function ScanTokens(sc: Scan, tokens: seq<string>): Step
    decreases |tokens|
  {
    if tokens == [] then Next(sc)
    else match TokenStep(sc, tokens[0])
      case Stop(m) => Stop(m)
      case Next(sc') => ScanTokens(sc', tokens[1..])
  }

  /** The argument handling of `get_record` as a whole. */
  function ParseArgs(rawText: string): ArgResult {
    if rawText == [] then Args(DefaultQuery)
    else match ScanTokens(InitScan, Words(rawText))
      case Stop(m) => ArgError(m)
      case Next(sc) => Args(sc.q)
  }

  lemma ScanTokensStep(sc: Scan, tokens: seq<string>, i: nat)
    requires i < |tokens|
    ensures ScanTokens(sc, tokens[i..]) ==
      match TokenStep(sc, tokens[i])
      case Stop(m) => Stop(m)
      case Next(sc') => ScanTokens(sc', tokens[i + 1..])
  {
    assert tokens[i..][0] == tokens[i];
    assert tokens[i..][1..] == tokens[i + 1..];
  }

  /** Parses the arguments of `get_record` as the source's token loop does. */
  method ParseRecordArgs(rawText: string) returns (r: ArgResult)
    ensures r == ParseArgs(rawText)
  {
    var typeId, page, lineLimit := 4, 1, 50;
    if rawText != [] {
      var tokens := Words(rawText);
      var seenPage, seenMode, seenLimit := false, false, false;
      var i := 0;
      while i < |tokens|
        invariant 0 <= i <= |tokens|
        invariant ScanTokens(InitScan, tokens) ==
          ScanTokens(Scan(Query(typeId, page, lineLimit), seenPage, seenMode, seenLimit), tokens[i..])
      {
        ghost var sc := Scan(Query(typeId, page, lineLimit), seenPage, seenMode, seenLimit);
        ScanTokensStep(sc, tokens, i);
        var token := tokens[i];
        if IsLimitToken(token) {
          if seenLimit {
            return ArgError(TooManyText);
          }
          var limitStr := token[1..];
          if !IsDigits(limitStr) {
            return ArgError(BadArgText);
          }
          var value := DigitsValue(limitStr);
          if value <= 0 {
            return ArgError(BadArgText);
          }
          lineLimit := value;
          seenLimit := true;
        } else if IsGunMode(token) {
          if seenMode {
            return ArgError(TooManyText);
          }
          typeId := 4;
          seenMode := true;
        } else if IsBattleMode(token) {
          if seenMode {
            return ArgError(TooManyText);
          }
          typeId := 5;
          seenMode := true;
        } else {
          var pageValue := ParseInt(token);
          if pageValue.None? {
            return ArgError(UsageText);
          }
          if pageValue.value <= 0 {
            return ArgError(BadArgText);
          }
          if seenPage {
            return ArgError(TooManyText);
          }
          page := pageValue.value;
          seenPage := true;
        }
        i := i + 1;
      }
      assert tokens[i..] == [];
    }
    return Args(Query(typeId, page, lineLimit));
  }

  /** What every scan state reached from the initial one satisfies. */
  predicate ScanValid(sc: Scan) {
    (sc.q.typeId == 4 || sc.q.typeId == 5) && sc.q.page >= 1 && sc.q.lineLimit >= 1
  }

  lemma {:induction false} ScanKeepsValid(sc: Scan, tokens: seq<string>)
    requires ScanValid(sc)
    ensures ScanTokens(sc, tokens).Next? ==> ScanValid(ScanTokens(sc, tokens).sc)
    decreases |tokens|
  {
    if tokens != [] {
      match TokenStep(sc, tokens[0])
      case Stop(m) =>
      case Next(sc') =>
        ScanKeepsValid(sc', tokens[1..]);
    }
  }

  /** An accepted query names one of the two modes, a positive page and a positive limit. */
  lemma ParsedQueryValid(rawText: string)
    ensures ParseArgs(rawText).Args? ==>
      var q := ParseArgs(rawText).q;
      (q.typeId == 4 || q.typeId == 5) && q.page >= 1 && q.lineLimit >= 1
  {
    if rawText != [] {
      ScanKeepsValid(InitScan, Words(rawText));
    }
  }

  /** Empty or blank arguments give the defaults: extraction mode, page 1, 50 records. */
  lemma BlankArgsAreDefault(rawText: string)
    requires Words(rawText) == []
    ensures ParseArgs(rawText) == Args(Query(4, 1, 50))
  {
  }

  /**
   * The reply is decided by the first token the loop refuses: whatever
   * follows it is never read.
   */
  lemma {:induction false} FirstRefusalWins(sc: Scan, tokens: seq<string>, i: nat, rest: seq<string>)
    requires i < |tokens|
    requires ScanTokens(sc, tokens[..i]).Next?
    requires TokenStep(ScanTokens(sc, tokens[..i]).sc, tokens[i]).Stop?
    ensures ScanTokens(sc, tokens + rest) == TokenStep(ScanTokens(sc, tokens[..i]).sc, tokens[i])
    decreases i
  {
    if i == 0 {
      assert (tokens + rest)[0] == tokens[0];
    } else {
      assert tokens[..i][0] == tokens[0];
      assert tokens[..i][1..] == tokens[1..][..i - 1];
      assert (tokens + rest)[0] == tokens[0];
      assert (tokens + rest)[1..] == tokens[1..] + rest;
      match TokenStep(sc, tokens[0])
      case Next(sc') =>
        FirstRefusalWins(sc', tokens[1..], i - 1, rest);
      case Stop(m) =>
    }
  }

  /** Feeding tokens in two parts is feeding them once. */
  lemma {:induction false} ScanTokensAppend(sc: Scan, a: seq<string>, b: seq<string>)
    ensures ScanTokens(sc, a + b) ==
      match ScanTokens(sc, a)
      case Stop(m) => Stop(m)
      case Next(sc') => ScanTokens(sc', b)
    decreases |a|
  {
    if a == [] {
      assert a + b == b;
    } else {
      assert (a + b)[0] == a[0];
      assert (a + b)[1..] == a[1..] + b;
      match TokenStep(sc, a[0])
      case Stop(m) =>
      case Next(sc') =>
        ScanTokensAppend(sc', a[1..], b);
    }
  }

  /**
   * Precedence inside one token: a second limit token is "too many" even
   * when malformed, and a non-positive page is "bad argument" even when a
   * page was already given.
   */
  lemma TokenPrecedence(sc: Scan, token: string)
    ensures IsLimitToken(token) && sc.seenLimit ==> TokenStep(sc, token) == Stop(TooManyText)
    ensures IsLimitToken(token) && !sc.seenLimit && !IsDigits(token[1..]) ==> TokenStep(sc, token) == Stop(BadArgText)
    ensures !IsLimitToken(token) && !IsGunMode(token) && !IsBattleMode(token) && ParseInt(token).Some? ==>
      TokenStep(sc, token) ==
        if ParseInt(token).value <= 0 then Stop(BadArgText)
        else if sc.seenPage then Stop(TooManyText)
        else Next(sc.(q := sc.q.(page := ParseInt(token).value), seenPage := true))
    ensures !IsLimitToken(token) && !IsGunMode(token) && !IsBattleMode(token) && ParseInt(token).None? ==>
      TokenStep(sc, token) == Stop(UsageText)
  {
  }

  /** A token that is accepted changes exactly the setting it names. */
  lemma TokenSetsOneField(sc: Scan, token: string)
    requires TokenStep(sc, token).Next?
    ensures var sc' := TokenStep(sc, token).sc;
      if IsLimitToken(token) then
        sc' == sc.(q := sc.q.(lineLimit := DigitsValue(token[1..])), seenLimit := true) && !sc.seenLimit && sc'.q.lineLimit > 0
      else if IsGunMode(token) || IsBattleMode(token) then
        sc' == sc.(q := sc.q.(typeId := if IsGunMode(token) then 4 else 5), seenMode := true) && !sc.seenMode
      else
        ParseInt(token).Some? && sc' == sc.(q := sc.q.(page := ParseInt(token).value), seenPage := true) && !sc.seenPage
  {
  }

  // ---------------------------------------------------------------------
  // Record listings
  // ---------------------------------------------------------------------

  /** `FinalPrice` of an extraction record: absent (`None`), a number, or text. */
  datatype Price = NoPrice | IntPrice(n: int) | TextPrice(s: string)

  datatype GunRecord = GunRecord(
    eventTime: string, mapId: IntOrText, escapeFailReason: int, durationS: int,
    killCount: int, finalPrice: Price, flowCalGainedPrice: int, armedForceId: int)

  /** `f"{d // 60}分{d % 60}秒"`: Python's floor division is Dafny's for a positive divisor. */
  function DurationText(d: int): string {
    IntToString(d / 60) + "分" + IntToString(d % 60) + "秒"
  }

  function EscapeText(escapeFailReason: int): (r: string)
    ensures r == "撤离成功" <==> escapeFailReason == 1
  {
    if escapeFailReason == 1 then "撤离成功" else "撤离失败"
  }

  function Abs(n: int): nat {
    if n >= 0 then n else -n
  }

  /** The sign of the profit, then its magnitude in readable units. */
  function ProfitText(v: int): string {
    (if v >= 0 then "" else "-") + TransNum(Abs(v))
  }

  /** The extracted value: a number (or numeric text) in readable units, other text as it is. */
  function PriceText(p: Price): string {
    match p
    case NoPrice => "未知"
    case IntPrice(n) => TransNum(n)
    case TextPrice(s) =>
      match ParseInt(s)
      case Some(n) => TransNum(n)
      case None => s
  }

  function ArmedForceText(id: int): string {
    ArmedForceName(AnInt(id)).value
  }

  function GunRecordText(index: int, r: GunRecord): string {
    "#" + IntToString(index) + " " + r.eventTime + "\n"
    + "🗺️ 地图: " + MapName(r.mapId) + " | 干员: " + ArmedForceText(r.armedForceId) + "\n"
    + "📊 结果: " + EscapeText(r.escapeFailReason) + " | 存活时长: " + DurationText(r.durationS) + "\n"
    + "💀 击杀干员: " + IntToString(r.killCount) + "\n"
    + "💰 带出: " + PriceText(r.finalPrice) + "\n"
    + "💸 利润: " + ProfitText(r.flowCalGainedPrice)
  }

  /** Entries are appended with the two-character separator `/n` as written. */
  const EntrySeparator := "/n"

  /** The entries for the first `n` records, each rendered with its number, counted from 1. */
  function Entries<R>(render: (int, R) -> string, records: seq<R>, n: nat): seq<string>
    requires n <= |records|
  {
    if n == 0 then [] else Entries(render, records, n - 1) + [EntrySeparator + render(n, records[n - 1])]
  }

  /** Entry `i` is record `i` rendered with number `i + 1`. */
  lemma {:induction false} EntriesAt<R>(render: (int, R) -> string, records: seq<R>, n: nat, i: nat)
    requires i < n <= |records|
    ensures |Entries(render, records, n)| == n
    ensures Entries(render, records, n)[i] == EntrySeparator + render(i + 1, records[i])
    decreases n
  {
    if i < n - 1 {
      EntriesAt(render, records, n - 1, i);
    } else {
      EntriesLength(render, records, n - 1);
    }
  }

  lemma {:induction false} EntriesLength<R>(render: (int, R) -> string, records: seq<R>, n: nat)
    requires n <= |records|
    ensures |Entries(render, records, n)| == n
    decreases n
  {
    if n > 0 {
      EntriesLength(render, records, n - 1);
    }
  }

  /** Entries depend only on their own record and number: a longer listing extends a shorter one. */
  lemma {:induction false} EntriesPrefix<R>(render: (int, R) -> string, records: seq<R>, m: nat, n: nat)
    requires m <= n <= |records|
    ensures |Entries(render, records, n)| == n
    ensures Entries(render, records, n)[..m] == Entries(render, records, m)
    decreases n
  {
    EntriesLength(render, records, n);
    if m == n {
      assert Entries(render, records, n)[..m] == Entries(render, records, n);
    } else {
      EntriesPrefix(render, records, m, n - 1);
      EntriesLength(render, records, n - 1);
      var es := Entries(render, records, n - 1);
      assert Entries(render, records, n)[..m] == es[..m];
    }
  }

  /** A header, then the entries for the first `n` records. */
  function Listing<R>(header: string, render: (int, R) -> string, records: seq<R>, n: nat): string
    requires n <= |records|
  {
    header + Concat(Entries(render, records, n))
  }

  /** One more record appended to a listing. */
  lemma ExtendListing<R>(header: string, render: (int, R) -> string, records: seq<R>, k: nat, entry: string)
    requires k < |records| && entry == EntrySeparator + render(k + 1, records[k])
    ensures Listing(header, render, records, k) + entry == Listing(header, render, records, k + 1)
  {
    ConcatSnoc(Entries(render, records, k), entry);
  }

  /** A listing of more records starts with the listing of fewer. */
  lemma ListingPrefix<R>(header: string, render: (int, R) -> string, records: seq<R>, m: nat, n: nat)
    requires m <= n <= |records|
    ensures StartsWith(Listing(header, render, records, n), Listing(header, render, records, m))
  {
    var es := Entries(render, records, n);
    EntriesPrefix(render, records, m, n);
    ConcatSplit(es, m);
  }

  /** How many of `count` records a limit lets through: records numbered above it are cut. */
  function Shown(lineLimit: int, count: nat): (k: nat)
    ensures k <= count
    ensures lineLimit >= count ==> k == count
    ensures 0 <= lineLimit < count ==> k == lineLimit
    ensures lineLimit < 0 ==> k == 0
  {
    if lineLimit <= 0 then 0 else if lineLimit < count then lineLimit else count
  }

  function GunHeader(userName: string, page: int): string {
    userName + "烽火战绩 第" + IntToString(page) + "页"
  }

  /** The reply for a page of extraction records. */
  function GunReply(userName: string, page: int, lineLimit: int, records: seq<GunRecord>): string {
    if records == [] then NoRecordsText
    else Listing(GunHeader(userName, page), GunRecordText, records, Shown(lineLimit, |records|))
  }

  /**
   * The loop of the extraction branch, for any way of rendering a record:
   * each record is appended with its number until a number passes the limit.
   */
  method ListLimited<R>(header: string, render: (int, R) -> string, lineLimit: int, records: seq<R>)
    returns (msgs: string)
    ensures msgs == Listing(header, render, records, Shown(lineLimit, |records|))
  {
    var index := 1;
    msgs := header;
    var k := 0;
    while k < |records|
      invariant 0 <= k <= |records| && index == k + 1
      invariant k == 0 || k <= lineLimit
      invariant msgs == Listing(header, render, records, k)
    {
      var curIndex := index;
      index := index + 1;
      if curIndex > lineLimit {
        break;
      }
      var entry := EntrySeparator + render(curIndex, records[k]);
      ExtendListing(header, render, records, k, entry);
      msgs := msgs + entry;
      k := k + 1;
    }
    assert k == Shown(lineLimit, |records|);
  }

  /** Builds the reply for a page of extraction records. */
  method ListGunRecords(userName: string, page: int, lineLimit: int, records: seq<GunRecord>) returns (msgs: string)
    ensures msgs == GunReply(userName, page, lineLimit, records)
  {
    if records == [] {
      return NoRecordsText;
    }
    msgs := ListLimited(GunHeader(userName, page), GunRecordText, lineLimit, records);
  }

  /**
   * A non-empty page lists its first `min(limit, count)` records, entry `i`
   * being record `i` numbered `i + 1`.
   */
  lemma GunListingShape(userName: string, page: int, lineLimit: int, records: seq<GunRecord>, i: nat)
    requires records != [] && lineLimit >= 1
    requires i < (if lineLimit < |records| then lineLimit else |records|)
    ensures var n := if lineLimit < |records| then lineLimit else |records|;
      var es := Entries(GunRecordText, records, n);
      GunReply(userName, page, lineLimit, records) == GunHeader(userName, page) + Concat(es) &&
      |es| == n && es[i] == EntrySeparator + GunRecordText(i + 1, records[i])
  {
    EntriesAt(GunRecordText, records, Shown(lineLimit, |records|), i);
  }

  /** Raising the limit only appends entries to the listing. */
  lemma GunLimitMonotone(userName: string, page: int, small: int, large: int, records: seq<GunRecord>)
    requires records != [] && small <= large
    ensures StartsWith(GunReply(userName, page, large, records), GunReply(userName, page, small, records))
  {
    ListingPrefix(GunHeader(userName, page), GunRecordText, records, Shown(small, |records|), Shown(large, |records|));
  }

  lemma {:induction false} ConcatSplit(es: seq<string>, m: nat)
    requires m <= |es|
    ensures Concat(es) == Concat(es[..m]) + Concat(es[m..])
    decreases |es|
  {
    if m < |es| {
      var last := es[|es| - 1];
      var init := es[..|es| - 1];
      assert es == init + [last];
      ConcatSnoc(init, last);
      ConcatSplit(init, m);
      assert init[..m] == es[..m];
      assert es[m..] == init[m..] + [last];
      ConcatSnoc(init[m..], last);
    } else {
      assert es[..m] == es;
      assert es[m..] == [];
    }
  }

  /** The profit carries a minus sign exactly when it is negative. */
  lemma ProfitSign(v: int)
    ensures |ProfitText(v)| > 0
    ensures ProfitText(v)[0] == '-' <==> v < 0
  {
    TransNumUnsigned(Abs(v));
  }

  lemma TransNumUnsigned(n: nat)
    ensures |TransNum(n)| > 0 && IsDigit(TransNum(n)[0])
  {
    if n < 1000 {
      assert TransNum(n) == NatToString(n);
    } else if n < 1000000 {
      var t := TenthsOf(n, 100);
      var a := NatToString(t / 10);
      assert TransNum(n) == a + ("." + [DigitChar(t % 10)] + "K");
    } else {
      var t := TenthsOf(n, 100000);
      var a := NatToString(t / 10);
      assert TransNum(n) == a + ("." + [DigitChar(t % 10)] + "M");
    }
  }

  /** A record of the battlefield mode. */
  datatype OperatorRecord = OperatorRecord(
    eventTime: string, mapId: IntOrText, matchResult: int, gametime: int,
    killNum: int, death: int, assist: int, rescueTeammateCount: int,
    roomId: string, totalScore: int, armedForceId: int)

  /** One player of a match's detail list. */
  datatype MpDetail = MpDetail(isCurrentUser: bool, rescueTeammateCount: int)

  function MatchResultText(n: int): string {
    if n == 1 then "胜利" else if n == 2 then "失败" else if n == 3 then "中途退出"
    else "未知" + IntToString(n)
  }

  predicate Rescued(d: MpDetail) {
    d.isCurrentUser && d.rescueTeammateCount > 0
  }

  /** The position of the detail entry the scan stops at (`|details|` when none). */
  function FirstRescued(details: seq<MpDetail>): (k: nat)
    ensures k <= |details|
    ensures forall j :: 0 <= j < k ==> !Rescued(details[j])
    ensures k < |details| ==> Rescued(details[k])
  {
    if details == [] then 0
    else if Rescued(details[0]) then 0
    else 1 + FirstRescued(details[1..])
  }

  /**
   * The rescue count shown: the record's own count, unless the match
   * detail holds an entry for the current user with a positive count.
   */
  function RescueCount(own: int, detail: Option<seq<MpDetail>>): int {
    match detail
    case None => own
    case Some(details) =>
      var k := FirstRescued(details);
      if k < |details| then details[k].rescueTeammateCount else own
  }

  /** The scan over a match's detail list, with the source's loop and `break`. */
  method FindRescueCount(own: int, detail: Option<seq<MpDetail>>) returns (count: int)
    ensures count == RescueCount(own, detail)
  {
    count := own;
    if detail.Some? {
      var details := detail.value;
      var i := 0;
      while i < |details|
        invariant 0 <= i <= |details|
        invariant forall j :: 0 <= j < i ==> !Rescued(details[j])
        invariant count == own
      {
        if details[i].isCurrentUser {
          var rc := details[i].rescueTeammateCount;
          if rc > 0 {
            count := rc;
            break;
          }
        }
        i := i + 1;
      }
      if i < |details| {
        assert FirstRescued(details) == i by { FirstRescuedIs(details, i); }
      } else {
        FirstRescuedIs(details, i);
      }
    }
  }

  lemma FirstRescuedIs(details: seq<MpDetail>, i: nat)
    requires i <= |details|
    requires forall j :: 0 <= j < i ==> !Rescued(details[j])
    requires i < |details| ==> Rescued(details[i])
    ensures FirstRescued(details) == i
  {
  }

  /** `int(TotalScore * 60 / gametime)`: the quotient truncated toward zero; 0 without a game time. */
  function AvgScore(totalScore: int, gametime: int): int {
    if gametime > 0 then
      if totalScore >= 0 then (totalScore * 60) / gametime else -(((-totalScore) * 60) / gametime)
    else 0
  }

  /**
   * The score per minute is the exact quotient rounded toward zero: it has
   * the score's sign, its magnitude times the game time fits under the
   * scaled score with less than one game time to spare, and negating the
   * score negates it.
   */
  lemma AvgScoreTruncates(totalScore: int, gametime: int)
    requires gametime > 0
    ensures totalScore >= 0 ==> AvgScore(totalScore, gametime) >= 0
    ensures totalScore <= 0 ==> AvgScore(totalScore, gametime) <= 0
    ensures Abs(AvgScore(totalScore, gametime)) * gametime <= Abs(totalScore) * 60
              < (Abs(AvgScore(totalScore, gametime)) + 1) * gametime
    ensures AvgScore(-totalScore, gametime) == -AvgScore(totalScore, gametime)
  {
    var m := Abs(totalScore) * 60;
    var q := m / gametime;
    assert Abs(AvgScore(totalScore, gametime)) == q by {
      if totalScore < 0 {
        assert (-totalScore) * 60 == m;
      }
    }
    FloorBounds(m, gametime);
  }

  /** The floor of `m / d` times `d` fits under `m` with less than `d` to spare. */
  lemma FloorBounds(m: nat, d: int)
    requires d > 0
    ensures (m / d) * d <= m < (m / d + 1) * d
  {
    DivModParts(m, d);
    assert (m / d + 1) * d == (m / d) * d + d;
  }

  function OperatorRecordText(index: int, r: OperatorRecord, rescue: int): string {
    "#" + IntToString(index) + " " + r.eventTime + "\n"
    + "🗺️ 地图: " + MapName(r.mapId) + " | 干员: " + ArmedForceText(r.armedForceId) + "\n"
    + "📊 结果: " + MatchResultText(r.matchResult) + " | 时长: " + DurationText(r.gametime) + "\n"
    + "💀 K/D/A: " + IntToString(r.killNum) + "/" + IntToString(r.death) + "/" + IntToString(r.assist)
    + " | 救援: " + IntToString(rescue) + "\n"
    + "🥇 总得分: " + IntToString(r.totalScore) + " | 分均得分: " + IntToString(AvgScore(r.totalScore, r.gametime))
  }

  /** The match detail of each room, as the API answers it (`None` when it fails or is empty). */
  type TdmDetails = string -> Option<seq<MpDetail>>

  /** A battlefield record rendered with the rescue count its match detail gives. */
  function OperatorRender(details: TdmDetails): (int, OperatorRecord) -> string {
    (index: int, r: OperatorRecord) => OperatorRecordText(index, r, RescueCount(r.rescueTeammateCount, details(r.roomId)))
  }

  function OperatorHeader(userName: string, page: int): string {
    userName + "战场战绩 第" + IntToString(page) + "页"
  }

  /** The reply for a page of battlefield records: every record, no limit. */
  function OperatorReply(userName: string, page: int, records: seq<OperatorRecord>, details: TdmDetails): string {
    if records == [] then NoRecordsText
    else Listing(OperatorHeader(userName, page), OperatorRender(details), records, |records|)
  }

  /** The detail requests of a battlefield page: one per record, in order. */
  function TdmCalls(records: seq<OperatorRecord>): (cs: seq<Request>)
    ensures |cs| == |records|
    ensures forall i :: 0 <= i < |records| ==> cs[i] == TdmDetailRequest(records[i].roomId)
  {
    if records == [] then [] else TdmCalls(records[..|records| - 1]) + [TdmDetailRequest(records[|records| - 1].roomId)]
  }

  lemma TdmCallsSnoc(records: seq<OperatorRecord>, k: nat)
    requires k < |records|
    ensures TdmCalls(records[..k + 1]) == TdmCalls(records[..k]) + [TdmDetailRequest(records[k].roomId)]
  {
    assert records[..k + 1][..k] == records[..k];
  }

  // ---------------------------------------------------------------------
  // Special office (get_tqc)
  // ---------------------------------------------------------------------

  datatype Device = Device(objectId: int, leftTime: int, pushTime: int, placeName: string, totalTime: int)

  /** One entry of the intermediate `devices` list. */
  datatype DeviceView =
    | Producing(placeName: string, objectName: string, leftTime: string, finishTime: string)
    | Idle(placeName: string)

  predicate IsProducing(d: Device) {
    d.objectId > 0 && d.leftTime > 0
  }

  /** `relate_map[str(id)]['objectName']`, else `物品{id}`. */
  function ObjectName(relateMap: map<string, string>, objectId: int): string {
    var key := IntToString(objectId);
    if key in relateMap then relateMap[key] else "物品" + key
  }

  /** `clock(t)` renders a timestamp as local `%m-%d %H:%M:%S`. */
  type Clock = int -> string

  function Classify(d: Device, relateMap: map<string, string>, clock: Clock): (v: DeviceView)
    ensures v.Producing? <==> IsProducing(d)
    ensures v.placeName == d.placeName
    ensures v.Producing? ==> v.leftTime == SecondsToDuration(d.leftTime) && v.finishTime == clock(d.pushTime)
  {
    if IsProducing(d) then
      Producing(d.placeName, ObjectName(relateMap, d.objectId), SecondsToDuration(d.leftTime), clock(d.pushTime))
    else Idle(d.placeName)
  }

  function ClassifyAll(devices: seq<Device>, relateMap: map<string, string>, clock: Clock): (vs: seq<DeviceView>)
    ensures |vs| == |devices|
    ensures forall i :: 0 <= i < |devices| ==> vs[i] == Classify(devices[i], relateMap, clock)
  {
    if devices == [] then []
    else ClassifyAll(devices[..|devices| - 1], relateMap, clock) + [Classify(devices[|devices| - 1], relateMap, clock)]
  }

  function ViewText(v: DeviceView): (t: string)
    ensures |t| > 0
  {
    match v
    case Producing(place, obj, left, finish) =>
      place + "：" + obj + "，剩余时间：" + left + "，完成时间：" + finish
    case Idle(place) => place + "：闲置中"
  }

  function ViewTexts(vs: seq<DeviceView>): (ts: seq<string>)
    ensures |ts| == |vs|
    ensures forall i :: 0 <= i < |vs| ==> ts[i] == ViewText(vs[i])
  {
    if vs == [] then [] else ViewTexts(vs[..|vs| - 1]) + [ViewText(vs[|vs| - 1])]
  }

  /** One line per device, or the no-data text. */
  function DeviceReply(vs: seq<DeviceView>): string {
    if vs == [] then NoDeviceText else Join(ViewTexts(vs), "\n")
  }

  /**
   * The failure reply as written: a plain string literal, so the API's
   * message is never inserted.
   */
  function TqcFailureAsWritten(message: string): string {
    "获取特勤处状态失败：{res['message']}"
  }

  const TqcFailurePrefix := "获取特勤处状态失败："

  /** The failure reply as evidently intended: the prefix, then the API's message. */
  function TqcFailureText(message: string): (r: string)
    ensures StartsWith(r, TqcFailurePrefix)
  {
    TqcFailurePrefix + message
  }

  /** Two different API messages give the same reply as written. */
  lemma TqcFailureDropsMessage()
    ensures "token过期" != "系统繁忙"
    ensures TqcFailureAsWritten("token过期") == TqcFailureAsWritten("系统繁忙")
  {
  }

  /** The intended reply gives the API's message back. */
  lemma TqcFailureKeepsMessage(message: string)
    ensures TqcFailureText(message)[|TqcFailurePrefix|..] == message
  {
  }

  // ---------------------------------------------------------------------
  // The API and the MsgInfo object
  // ---------------------------------------------------------------------

  datatype Request =
    | PlayerInfoRequest
    | RecordRequest(typeId: int, page: int)
    | TdmDetailRequest(roomId: string)
    | SafehouseRequest

  datatype RecordPage = RecordPage(gun: seq<GunRecord>, operator: seq<OperatorRecord>)

  datatype SafehouseAnswer =
    | SafehouseOk(placeData: seq<Device>, relateMap: map<string, string>)
    | SafehouseFail(message: string)

  /**
   * The game API's answers for one user: the character name (`None` when
   * the request fails), record pages by mode and page, match details by
   * room, and the special-office status.
   */
  datatype RecordApi = RecordApi(
    playerName: Option<string>,
    record: (int, int) -> Option<RecordPage>,
    tdmDetail: TdmDetails,
    safehouse: SafehouseAnswer)

  /** The reply of `get_record`. */
  function RecordReply(user: Option<UserRow>, api: RecordApi, rawText: string): string {
    if user.None? then NotBoundText
    else match ParseArgs(rawText)
      case ArgError(m) => m
      case Args(q) => PageReply(api, q)
  }

  /** The requests `get_record` sends, in order. */
  function RecordCalls(user: Option<UserRow>, api: RecordApi, rawText: string): seq<Request> {
    if user.None? then []
    else match ParseArgs(rawText)
      case ArgError(_) => []
      case Args(q) => PageCalls(api, q)
  }

  /** The reply for parsed arguments: the character name, then the page of records. */
  function PageReply(api: RecordApi, q: Query): string {
    if api.playerName.None? then PlayerFailText
    else match api.record(q.typeId, q.page)
      case None => RecordFailText
      case Some(pg) =>
        if q.typeId == 4 then GunReply(api.playerName.value, q.page, q.lineLimit, pg.gun)
        else OperatorReply(api.playerName.value, q.page, pg.operator, api.tdmDetail)
  }

  /** The requests for parsed arguments, in order. */
  function PageCalls(api: RecordApi, q: Query): seq<Request> {
    if api.playerName.None? then [PlayerInfoRequest]
    else [PlayerInfoRequest, RecordRequest(q.typeId, q.page)] + DetailCalls(api, q)
  }

  /** The detail requests after a record page: one per battlefield record. */
  function DetailCalls(api: RecordApi, q: Query): seq<Request> {
    match api.record(q.typeId, q.page)
    case None => []
    case Some(pg) => if q.typeId == 4 then [] else TdmCalls(pg.operator)
  }

  /** The reply of `get_tqc`. */
  function TqcReply(user: Option<UserRow>, api: RecordApi, clock: Clock): string {
    if user.None? then NotBoundText
    else match api.safehouse
      case SafehouseFail(m) => TqcFailureText(m)
      case SafehouseOk(devices, relateMap) => DeviceReply(ClassifyAll(devices, relateMap, clock))
  }

  function TqcCalls(user: Option<UserRow>): seq<Request> {
    if user.None? then [] else [SafehouseRequest]
  }

  /** `DFUser.select_data(user_id, bot_id)`. */
  function SelectUser(users: map<(string, string), UserRow>, userId: string, botId: string): Option<UserRow> {
    if (userId, botId) in users then Some(users[(userId, botId)]) else None
  }

  /** The first loop of `get_tqc`: one view per device, in order. */
  method ClassifyDevices(placeData: seq<Device>, relateMap: map<string, string>, clock: Clock)
    returns (devices: seq<DeviceView>)
    ensures devices == ClassifyAll(placeData, relateMap, clock)
  {
    devices := [];
    for i := 0 to |placeData|
      invariant devices == ClassifyAll(placeData[..i], relateMap, clock)
    {
      var device := placeData[i];
      if device.objectId > 0 && device.leftTime > 0 {
        var objectName := ObjectName(relateMap, device.objectId);
        devices := devices + [Producing(device.placeName, objectName, SecondsToDuration(device.leftTime), clock(device.pushTime))];
      } else {
        devices := devices + [Idle(device.placeName)];
      }
      assert placeData[..i + 1][..i] == placeData[..i];
    }
    assert placeData[..|placeData|] == placeData;
  }

  /** The second loop of `get_tqc`: the device lines joined by line breaks, or the no-data text. */
  method JoinDeviceLines(devices: seq<DeviceView>) returns (msg: string)
    ensures msg == DeviceReply(devices)
  {
    var message: Option<string> := None;
    for i := 0 to |devices|
      invariant i == 0 ==> message == None
      invariant i > 0 ==> message == Some(Join(ViewTexts(devices[..i]), "\n")) && message.value != []
    {
      var text := ViewText(devices[i]);
      assert devices[..i + 1][..i] == devices[..i];
      if message.None? || message.value == [] {
        message := Some(text);
        assert ViewTexts(devices[..i + 1]) == [text];
      } else {
        JoinSnoc(ViewTexts(devices[..i]), text, "\n");
        message := Some(message.value + "\n" + text);
      }
    }
    assert devices[..|devices|] == devices;
    if message.Some? && message.value != [] {
      return message.value;
    } else {
      return NoDeviceText;
    }
  }

  class MsgInfo {
    const userData: Option<UserRow>
    var calls: seq<Request>

    constructor(users: map<(string, string), UserRow>, userId: string, botId: string)
      ensures userData == SelectUser(users, userId, botId)
      ensures calls == []
    {
      userData := SelectUser(users, userId, botId);
      calls := [];
    }

    /** Lists battlefield records, asking for each record's match detail. */
    method ListOperatorRecords(api: RecordApi, userName: string, page: int, records: seq<OperatorRecord>)
      returns (msgs: string)
      modifies this
      ensures msgs == OperatorReply(userName, page, records, api.tdmDetail)
      ensures calls == old(calls) + TdmCalls(records)
    {
      if records == [] {
        return NoRecordsText;
      }
      var index := 1;
      msgs := OperatorHeader(userName, page);
      var k := 0;
      while k < |records|
        invariant 0 <= k <= |records| && index == k + 1
        invariant msgs == Listing(OperatorHeader(userName, page), OperatorRender(api.tdmDetail), records, k)
        invariant calls == old(calls) + TdmCalls(records[..k])
      {
        var curIndex := index;
        index := index + 1;
        var entry := OperatorRecordEntry(api, curIndex, records[k]);
        ExtendListing(OperatorHeader(userName, page), OperatorRender(api.tdmDetail), records, k, entry);
        msgs := msgs + entry;
        TdmCallsSnoc(records, k);
        SeqAssoc(old(calls), TdmCalls(records[..k]), [TdmDetailRequest(records[k].roomId)]);
        k := k + 1;
      }
      assert records[..k] == records;
    }

    /** The body of the battlefield loop for one record: its detail request, then its entry. */
    method OperatorRecordEntry(api: RecordApi, index: int, record: OperatorRecord) returns (entry: string)
      modifies this
      ensures entry == EntrySeparator + OperatorRender(api.tdmDetail)(index, record)
      ensures calls == old(calls) + [TdmDetailRequest(record.roomId)]
    {
      calls := calls + [TdmDetailRequest(record.roomId)];
      var detail := api.tdmDetail(record.roomId);
      var rescue := FindRescueCount(record.rescueTeammateCount, detail);
      entry := EntrySeparator + OperatorRecordText(index, record, rescue);
    }

    /** `get_record`: parses the arguments, then fetches and formats one page. */
    method GetRecord(api: RecordApi, rawText: string) returns (msg: string)
      modifies this
      ensures msg == RecordReply(userData, api, rawText)
      ensures calls == old(calls) + RecordCalls(userData, api, rawText)
    {
      if userData.None? {
        return NotBoundText;
      }
      var args := ParseRecordArgs(rawText);
      if args.ArgError? {
        return args.message;
      }
      msg := FetchPage(api, args.q);
    }

    /** The part of `get_record` after the arguments are parsed: the two requests and the listing. */
    method FetchPage(api: RecordApi, q: Query) returns (msg: string)
      modifies this
      ensures msg == PageReply(api, q)
      ensures calls == old(calls) + PageCalls(api, q)
    {
      calls := calls + [PlayerInfoRequest];
      if api.playerName.None? {
        assert PageCalls(api, q) == [PlayerInfoRequest];
        return PlayerFailText;
      }
      var userName := api.playerName.value;
      calls := calls + [RecordRequest(q.typeId, q.page)];
      var page := api.record(q.typeId, q.page);
      if page.None? {
        assert DetailCalls(api, q) == [];
        assert calls == old(calls) + [PlayerInfoRequest, RecordRequest(q.typeId, q.page)];
        return RecordFailText;
      }
      ghost var sent := calls;
      if q.typeId == 4 {
        msg := ListGunRecords(userName, q.page, q.lineLimit, page.value.gun);
      } else {
        msg := ListOperatorRecords(api, userName, q.page, page.value.operator);
      }
      assert calls == sent + DetailCalls(api, q);
      assert sent == old(calls) + [PlayerInfoRequest, RecordRequest(q.typeId, q.page)];
      SeqAssoc(old(calls), [PlayerInfoRequest, RecordRequest(q.typeId, q.page)], DetailCalls(api, q));
    }

    /** `get_tqc`: classifies every device, then joins one line per device. */
    method GetTqc(api: RecordApi, clock: Clock) returns (msg: string)
      modifies this
      ensures msg == TqcReply(userData, api, clock)
      ensures calls == old(calls) + TqcCalls(userData)
    {
      if userData.None? {
        return NotBoundText;
      }
      calls := calls + [SafehouseRequest];
      if api.safehouse.SafehouseFail? {
        return TqcFailureText(api.safehouse.message);
      }
      var devices := ClassifyDevices(api.safehouse.placeData, api.safehouse.relateMap, clock);
      msg := JoinDeviceLines(devices);
    }
  }

  // ---------------------------------------------------------------------
  // Properties of the replies
  // ---------------------------------------------------------------------

  /** An unbound user gets the login prompt, and nothing is asked of the API. */
  lemma UnboundUserPrompted(api: RecordApi, rawText: string, clock: Clock)
    ensures RecordReply(None, api, rawText) == NotBoundText && RecordCalls(None, api, rawText) == []
    ensures TqcReply(None, api, clock) == NotBoundText && TqcCalls(None) == []
  {
  }

  /** Refused arguments are answered before any request is sent. */
  lemma RefusedArgsSendNothing(user: Option<UserRow>, api: RecordApi, rawText: string)
    requires user.Some? && ParseArgs(rawText).ArgError?
    ensures RecordReply(user, api, rawText) == ParseArgs(rawText).message
    ensures RecordReply(user, api, rawText) in {TooManyText, BadArgText, UsageText}
    ensures RecordCalls(user, api, rawText) == []
  {
    ScanStopsWith(InitScan, Words(rawText));
  }

  lemma {:induction false} ScanStopsWith(sc: Scan, tokens: seq<string>)
    ensures ScanTokens(sc, tokens).Stop? ==> ScanTokens(sc, tokens).message in {TooManyText, BadArgText, UsageText}
    decreases |tokens|
  {
    if tokens != [] {
      match TokenStep(sc, tokens[0])
      case Stop(m) =>
      case Next(sc') => ScanStopsWith(sc', tokens[1..]);
    }
  }

  /** A battlefield page asks for one match detail per record, in the records' order. */
  lemma OperatorPageCalls(user: Option<UserRow>, api: RecordApi, rawText: string)
    requires user.Some? && ParseArgs(rawText).Args? && api.playerName.Some?
    requires var q := ParseArgs(rawText).q; q.typeId == 5 && api.record(q.typeId, q.page).Some?
    ensures var q := ParseArgs(rawText).q; var ops := api.record(q.typeId, q.page).value.operator;
      |RecordCalls(user, api, rawText)| == 2 + |ops| &&
      forall i :: 0 <= i < |ops| ==> RecordCalls(user, api, rawText)[2 + i] == TdmDetailRequest(ops[i].roomId)
  {
    var q := ParseArgs(rawText).q;
    var ops := api.record(q.typeId, q.page).value.operator;
    assert RecordCalls(user, api, rawText) == [PlayerInfoRequest, RecordRequest(q.typeId, q.page)] + TdmCalls(ops);
  }

  /** No text of a device contains a line break when its names do not. */
  predicate SingleLine(s: string) {
    '\n' !in s
  }

  lemma DigitsSingleLine(n: nat)
    ensures SingleLine(NatToString(n))
  {
  }

  lemma SecondsToDurationSingleLine(seconds: int)
    ensures SingleLine(SecondsToDuration(seconds))
  {
    if seconds > 0 {
      DigitsSingleLine(seconds / 3600);
      DigitsSingleLine((seconds % 3600) / 60);
      DigitsSingleLine(seconds % 60);
    }
  }

  /**
   * With line-free place and object names and clock texts, the status reply
   * splits back into one line per device, each that device's text.
   */
  lemma TqcOneLinePerDevice(devices: seq<Device>, relateMap: map<string, string>, clock: Clock)
    requires devices != []
    requires forall i :: 0 <= i < |devices| ==> SingleLine(devices[i].placeName) && SingleLine(clock(devices[i].pushTime))
    requires forall k :: k in relateMap ==> SingleLine(relateMap[k])
    ensures var vs := ClassifyAll(devices, relateMap, clock);
      SplitOn(DeviceReply(vs), '\n') == ViewTexts(vs)
  {
    var vs := ClassifyAll(devices, relateMap, clock);
    var ts := ViewTexts(vs);
    forall i | 0 <= i < |ts|
      ensures '\n' !in ts[i]
    {
      ViewTextSingleLine(devices[i], relateMap, clock);
    }
    SplitJoin(ts, '\n');
  }

  lemma ViewTextSingleLine(d: Device, relateMap: map<string, string>, clock: Clock)
    requires SingleLine(d.placeName) && SingleLine(clock(d.pushTime))
    requires forall k :: k in relateMap ==> SingleLine(relateMap[k])
    ensures '\n' !in ViewText(Classify(d, relateMap, clock))
  {
    var t := ViewText(Classify(d, relateMap, clock));
    if IsProducing(d) {
      DigitsSingleLine(d.objectId);
      assert SingleLine(ObjectName(relateMap, d.objectId));
      SecondsToDurationSingleLine(d.leftTime);
    }
    assert SingleLine(t);
  }
}
