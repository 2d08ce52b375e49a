/** The QR-code login flow of DeltaUID/Delta_login/login.py.

    The backend is a script of answers: the challenge, the answer to the n-th
    status poll, and the answers to the token exchange, the bind and the
    player-info query. What the flow does to the outside world (messages sent,
    sleeps, backend calls, store writes) is appended to a log, in order. */
module DeltaLogin {
  import opened Text
  import DeltaUtil

  const MaxLoginAttempts: nat := 120

  // ---------------------------------------------------------------------------
  // Events, backend answers and effects
  // ---------------------------------------------------------------------------

  /** The parts of the chat event the flow reads. `groupId` is `None` in a
      private chat. */
  datatype Event = Event(userId: string, botId: string, groupId: Option<string>, text: string, command: string)

  /** A backend answer: `status` true with its data, or false with an optional message. */
  datatype Reply<T> = Ok(value: T) | Fail(message: Option<string>)

  datatype Token = Token(accessToken: string, openid: string)

  datatype Player = Player(name: string, money: int)

  /** The `message` of the QQ challenge answer: a plain string, or the challenge. */
  datatype SigMessage =
    | SigText(text: string)
    | Challenge(image: string, cookie: string, qrSig: string, token: string, loginSig: string)

  datatype SigAnswer = SigAnswer(status: bool, message: SigMessage)

  /** One answer of the QQ status poll; `cookie` is read only for code 0. */
  datatype QqStatus = QqStatus(code: int, message: Option<string>, cookie: string)

  datatype WxQr = WxQr(qrCode: string, uuid: string)

  /** One answer of the WeChat status poll; `wxCode` is read only for a true status with code 3. */
  datatype WxStatus = WxStatus(status: bool, code: int, message: Option<string>, wxCode: string)

  datatype Backend = Backend(
    sig: SigAnswer,
    qqPoll: nat -> QqStatus,
    qqToken: string -> Reply<Token>,
    wxQr: Reply<WxQr>,
    wxImage: Option<string>,
    wxPoll: nat -> WxStatus,
    wxToken: string -> Reply<Token>,
    bind: Reply<()>,
    playerInfo: Reply<Player>)

  /** `group_id` as stored: the event's group, or 0 when it is absent or empty. */
  datatype GroupValue = Zero | Group(id: string)

  datatype UserData = UserData(qqId: string, group: GroupValue, accessToken: string, openid: string, platform: string)

  datatype Content = Text(text: string) | QrPrompt(caption: string, image: string)

  datatype ApiCall =
    | GetSig
    | QqLoginStatus(cookie: string, qrSig: string, token: string, loginSig: string)
    | AccessToken(cookie: string)
    | WechatLoginQr
    | FetchImage(url: string)
    | WechatLoginStatus(uuid: string)
    | WechatAccessToken(wxCode: string)
    | BindAccount(accessToken: string, openid: string)
    | GetPlayerInfo(accessToken: string, openid: string)
    // the bind table's own queries, made by the command handlers
    | InsertUid(uid: string)
    | SwitchUid(uid: string)
    | GetUid
    | DeleteUid(uid: string)

  datatype Effect =
    | Send(content: Content, atSender: bool)
    | Sleep
    | Call(api: ApiCall)
    | StoreUser(user: UserData)
    | StoreBind(user: UserData)
    | StoreRow(qqId: string, row: UserRow)
    // `send_diff_msg(bot, code, table)`: the reply chosen from `table` by `code`
    | DiffReply(code: int, table: map<int, string>)

  /** `res.get('message', '未知错误')` */
  function FailText(m: Option<string>): string {
    match m
    case Some(s) => s
    case None => "未知错误"
  }

  /** `f"{res['message']}"`; a dict message is shown by a placeholder. */
  function SigMessageText(m: SigMessage): string {
    match m
    case SigText(s) => s
    case Challenge(_, _, _, _, _) => "{...}"
  }

  function GroupOf(ev: Event): GroupValue {
    if ev.groupId.Some? && ev.groupId.value != "" then Group(ev.groupId.value) else Zero
  }

  const TimeoutText: string := "登录超时，请重新尝试"

  function SuccessText(p: Player): string {
    "登录成功，角色名：" + p.name + "，现金：" + DeltaUtil.TransNum(p.money)
    + "\n登录有效期60天，在小程序登录会使这里的登录状态失效"
  }

  // ---------------------------------------------------------------------------
  // The flow as functions of the script
  // ---------------------------------------------------------------------------

  // Each step is specified by two functions: what it returns (`...Result`) and
  // what it does, in order (`...Effects`).

  /** `_process_login_result(bot, ev, res, platform)`: the stored user data, when
      the token, the bind and the player query all succeed. */
  function ProcessResult(b: Backend, ev: Event, res: Reply<Token>, platform: string): Option<UserData> {
    if res.Ok? && b.bind.Ok? && b.playerInfo.Ok? then
      Some(UserData(ev.userId, GroupOf(ev), res.value.accessToken, res.value.openid, platform))
    else None
  }

  function ProcessEffects(b: Backend, ev: Event, res: Reply<Token>, platform: string): seq<Effect> {
    match res
    case Fail(m) => [Send(Text("登录失败：" + FailText(m)), true)]
    case Ok(tok) =>
      var bindCall := Call(BindAccount(tok.accessToken, tok.openid));
      match b.bind
      case Fail(m) => [bindCall, Send(Text("绑定失败：" + FailText(m)), true)]
      case Ok(_) =>
        var infoCall := Call(GetPlayerInfo(tok.accessToken, tok.openid));
        match b.playerInfo
        case Fail(m) => [bindCall, infoCall, Send(Text("查询角色信息失败：" + FailText(m)), true)]
        case Ok(p) =>
          var user := UserData(ev.userId, GroupOf(ev), tok.accessToken, tok.openid, platform);
          [bindCall, infoCall, StoreUser(user), StoreBind(user), Send(Text(SuccessText(p)), true)]
  }

  function QqPollCall(c: SigMessage): Effect
    requires c.Challenge?
  {
    Call(QqLoginStatus(c.cookie, c.qrSig, c.token, c.loginSig))
  }

  /** Codes -4, -2 and -3 reject the login. */
  predicate QqRejected(st: QqStatus) {
    st.code in {-4, -2, -3}
  }

  /** Every code other than 0, -4, -2, -3 and -1 means "not yet". */
  predicate QqPending(st: QqStatus) {
    st.code != 0 && !QqRejected(st) && st.code != -1
  }

  /** The QQ polling loop from the poll numbered `attempts` on: what it returns. */
  function QqPollResult(b: Backend, ev: Event, attempts: nat): Option<UserData>
    decreases MaxLoginAttempts - attempts
  {
    if attempts >= MaxLoginAttempts then None
    else
      var st := b.qqPoll(attempts);
      if st.code == 0 then ProcessResult(b, ev, b.qqToken(st.cookie), "qq")
      else if QqRejected(st) || st.code == -1 then None
      else QqPollResult(b, ev, attempts + 1)
  }

  /** The QQ polling loop from the poll numbered `attempts` on: what it does. */
  function QqPollEffects(b: Backend, ev: Event, c: SigMessage, attempts: nat): seq<Effect>
    requires c.Challenge?
    decreases MaxLoginAttempts - attempts
  {
    if attempts >= MaxLoginAttempts then [Send(Text(TimeoutText), true)]
    else
      var st := b.qqPoll(attempts);
      var poll := QqPollCall(c);
      if st.code == 0 then
        [poll, Call(AccessToken(st.cookie))] + ProcessEffects(b, ev, b.qqToken(st.cookie), "qq")
      else if QqRejected(st) then
        [poll, Send(Text("登录失败：" + FailText(st.message)), true)]
      else if st.code == -1 then
        [poll, Send(Text(TimeoutText), true)]
      else
        [poll, Sleep] + QqPollEffects(b, ev, c, attempts + 1)
  }

  /** The challenge answer is unusable: a false status, or a plain-string message. */
  predicate SigFails(s: SigAnswer) {
    !s.status || s.message.SigText?
  }

  /** `_login_with_qq(bot, ev)`: what it returns. */
  function QqResult(b: Backend, ev: Event): Option<UserData> {
    if SigFails(b.sig) then None else QqPollResult(b, ev, 0)
  }

  /** `_login_with_qq(bot, ev)`: what it does. */
  function QqEffects(b: Backend, ev: Event): seq<Effect> {
    if SigFails(b.sig) then
      [Call(GetSig), Send(Text("获取二维码失败：" + SigMessageText(b.sig.message)), false)]
    else
      [Call(GetSig), Send(QrPrompt("请打开手机qq使用摄像头扫码", b.sig.message.image), true)]
      + QqPollEffects(b, ev, b.sig.message, 0)
  }

  /** A true status with any code but 3 means "not yet". */
  predicate WxPending(st: WxStatus) {
    st.status && st.code != 3
  }

  /** The WeChat polling loop from the poll numbered `attempts` on: what it returns. */
  function WxPollResult(b: Backend, ev: Event, attempts: nat): Option<UserData>
    decreases MaxLoginAttempts - attempts
  {
    if attempts >= MaxLoginAttempts then None
    else
      var st := b.wxPoll(attempts);
      if st.status && st.code == 3 then ProcessResult(b, ev, b.wxToken(st.wxCode), "wx")
      else if !st.status || attempts + 1 >= MaxLoginAttempts then None
      else WxPollResult(b, ev, attempts + 1)
  }

  /** The WeChat polling loop from the poll numbered `attempts` on: what it does. */
  function WxPollEffects(b: Backend, ev: Event, uuid: string, attempts: nat): seq<Effect>
    decreases MaxLoginAttempts - attempts
  {
    if attempts >= MaxLoginAttempts then []
    else
      var st := b.wxPoll(attempts);
      var poll := Call(WechatLoginStatus(uuid));
      if st.status && st.code == 3 then
        [poll, Call(WechatAccessToken(st.wxCode))] + ProcessEffects(b, ev, b.wxToken(st.wxCode), "wx")
      else if !st.status then
        [poll, Send(Text("登录失败：" + FailText(st.message)), true)]
      else if attempts + 1 >= MaxLoginAttempts then
        [poll, Send(Text(TimeoutText), true)]
      else
        [poll, Sleep] + WxPollEffects(b, ev, uuid, attempts + 1)
  }

  /** `_login_with_wechat(bot, ev)`: what it returns. */
  function WxResult(b: Backend, ev: Event): Option<UserData> {
    if b.wxQr.Fail? || b.wxImage.None? then None else WxPollResult(b, ev, 0)
  }

  /** `_login_with_wechat(bot, ev)`: what it does. */
  function WxEffects(b: Backend, ev: Event): seq<Effect> {
    match b.wxQr
    case Fail(m) => [Call(WechatLoginQr), Send(Text("获取二维码失败：" + FailText(m)), false)]
    case Ok(qr) =>
      var pre := [Call(WechatLoginQr), Call(FetchImage(qr.qrCode))];
      match b.wxImage
      case None => pre + [Send(Text("获取二维码图片失败，请重试"), true)]
      case Some(img) =>
        pre + [Send(QrPrompt("请打开手机微信使用摄像头扫码", img), true)] + WxPollEffects(b, ev, qr.uuid, 0)
  }

  datatype Platform = Qq | Wechat | BadPlatform

  /** The platform `login_in` selects from the event text. */
  function SelectPlatform(text: string): Platform {
    var platform := if text != "" then Lower(text) else "qq";
    if platform == "" || platform == "qq" then Qq
    else if platform == "微信" then Wechat
    else BadPlatform
  }

  /** `login_in(bot, ev)`: what it returns. */
  function LoginInResult(b: Backend, ev: Event): Option<UserData> {
    match SelectPlatform(ev.text)
    case Qq => QqResult(b, ev)
    case Wechat => WxResult(b, ev)
    case BadPlatform => None
  }

  /** `login_in(bot, ev)`: what it does. */
  function LoginInEffects(b: Backend, ev: Event): seq<Effect> {
    match SelectPlatform(ev.text)
    case Qq => QqEffects(b, ev)
    case Wechat => WxEffects(b, ev)
    case BadPlatform => [Send(Text("平台参数错误，请使用QQ或微信"), true)]
  }

  // ---------------------------------------------------------------------------
  // The store
  // ---------------------------------------------------------------------------

  /** A `DFUser` row, keyed by (user id, bot id). */
  datatype UserRow = UserRow(uid: string, platform: string, cookie: string)

  /** A `DFBind` row, keyed by (user id, bot id). */
  datatype BindRow = BindRow(uid: string, group: GroupValue)

  function UserRowOf(u: UserData): UserRow {
    UserRow(u.openid, u.platform, u.accessToken)
  }

  function BindRowOf(u: UserData): BindRow {
    BindRow(u.openid, u.group)
  }

  function UsersAfter(users: map<(string, string), UserRow>, botId: string, r: Option<UserData>): map<(string, string), UserRow> {
    if r.Some? then users[(r.value.qqId, botId) := UserRowOf(r.value)] else users
  }

  function BindsAfter(binds: map<(string, string), BindRow>, botId: string, r: Option<UserData>): map<(string, string), BindRow> {
    if r.Some? then binds[(r.value.qqId, botId) := BindRowOf(r.value)] else binds
  }

  // ---------------------------------------------------------------------------
  // The flow as methods
  // ---------------------------------------------------------------------------

  function Repeat(e: seq<Effect>, n: nat): seq<Effect> {
    if n == 0 then [] else Repeat(e, n - 1) + e
  }

  lemma RepeatStep(e: seq<Effect>, n: nat, rest: seq<Effect>)
    ensures Repeat(e, n) + (e + rest) == Repeat(e, n + 1) + rest
  {
    assert Repeat(e, n + 1) == Repeat(e, n) + e;
  }

  lemma AppendAssoc(a: seq<Effect>, b: seq<Effect>, c: seq<Effect>, d: seq<Effect>)
    ensures a + b + c + d == a + (b + (c + d))
  {
  }

  /** The effects log, the two tables and the bot the session runs on. */
  class LoginSession {
    var log: seq<Effect>
    var users: map<(string, string), UserRow>
    var binds: map<(string, string), BindRow>
    const botId: string

    constructor(botId: string)
      ensures this.botId == botId && log == [] && users == map[] && binds == map[]
    {
      this.botId := botId;
      log := [];
      users := map[];
      binds := map[];
    }

    /** `_process_login_result(bot, ev, res, platform)` */
    method ProcessLoginResult(b: Backend, ev: Event, res: Reply<Token>, platform: string) returns (r: Option<UserData>)
      modifies this
      ensures r == ProcessResult(b, ev, res, platform)
      ensures log == old(log) + ProcessEffects(b, ev, res, platform)
      ensures users == UsersAfter(old(users), botId, r)
      ensures binds == BindsAfter(old(binds), botId, r)
    {
      if res.Fail? {
        log := log + [Effect.Send(Text("登录失败：" + FailText(res.message)), true)];
        return None;
      }
      var accessToken := res.value.accessToken;
      var openid := res.value.openid;
      var groupId := GroupOf(ev);
      log := log + [Call(BindAccount(accessToken, openid))];
      var bindRes := b.bind;
      if bindRes.Fail? {
        log := log + [Effect.Send(Text("绑定失败：" + FailText(bindRes.message)), true)];
        return None;
      }
      log := log + [Call(GetPlayerInfo(accessToken, openid))];
      var playerInfoRes := b.playerInfo;
      if playerInfoRes.Fail? {
        log := log + [Effect.Send(Text("查询角色信息失败：" + FailText(playerInfoRes.message)), true)];
        return None;
      }
      var userData := UserData(ev.userId, groupId, accessToken, openid, platform);
      users := users[(userData.qqId, botId) := UserRowOf(userData)];
      log := log + [StoreUser(userData)];
      binds := binds[(ev.userId, botId) := BindRowOf(userData)];
      log := log + [StoreBind(userData)];
      log := log + [Effect.Send(Text(SuccessText(playerInfoRes.value)), true)];
      r := Some(userData);
    }

    /** `_login_with_qq(bot, ev)` */
    method LoginWithQq(b: Backend, ev: Event) returns (r: Option<UserData>)
      modifies this
      ensures r == QqResult(b, ev)
      ensures log == old(log) + QqEffects(b, ev)
      ensures users == UsersAfter(old(users), botId, r)
      ensures binds == BindsAfter(old(binds), botId, r)
    {
      ghost var start := log;
      log := log + [Call(GetSig)];
      var res := b.sig;
      if !res.status || res.message.SigText? {
        log := log + [Effect.Send(Text("获取二维码失败：" + SigMessageText(res.message)), false)];
        return None;
      }
      var c := res.message;
      log := log + [Effect.Send(QrPrompt("请打开手机qq使用摄像头扫码", c.image), true)];
      ghost var prompt := [Call(GetSig), Effect.Send(QrPrompt("请打开手机qq使用摄像头扫码", c.image), true)];
      assert log == start + prompt;
      r := PollQq(b, ev, c);
      SeqAssoc(start, prompt, QqPollEffects(b, ev, c, 0));
    }

    /** One pass of the body of the `_login_with_qq` loop: poll once and, on a
        decisive status, finish the login. `done` is false exactly when the status
        says "not yet". */
    method PollQqOnce(b: Backend, ev: Event, c: SigMessage, attempts: nat) returns (done: bool, r: Option<UserData>)
      requires c.Challenge? && attempts < MaxLoginAttempts
      modifies this
      ensures done == !QqPending(b.qqPoll(attempts))
      ensures done ==> r == QqPollResult(b, ev, attempts)
      ensures done ==> log == old(log) + QqPollEffects(b, ev, c, attempts)
      ensures !done ==> log == old(log) + [QqPollCall(c)]
      ensures done ==> users == UsersAfter(old(users), botId, r) && binds == BindsAfter(old(binds), botId, r)
      ensures !done ==> users == old(users) && binds == old(binds)
    {
      log := log + [Call(QqLoginStatus(c.cookie, c.qrSig, c.token, c.loginSig))];
      var st := b.qqPoll(attempts);
      if st.code == 0 {
        var cookie := st.cookie;
        log := log + [Call(AccessToken(cookie))];
        var tokenRes := b.qqToken(cookie);
        r := ProcessLoginResult(b, ev, tokenRes, "qq");
        return true, r;
      } else if st.code in {-4, -2, -3} {
        log := log + [Effect.Send(Text("登录失败：" + FailText(st.message)), true)];
        return true, None;
      } else if st.code == -1 {
        log := log + [Effect.Send(Text(TimeoutText), true)];
        return true, None;
      }
      return false, None;
    }

    /** The `while attempts < MAX_LOGIN_ATTEMPTS` loop of `_login_with_qq`. */
    method PollQq(b: Backend, ev: Event, c: SigMessage) returns (r: Option<UserData>)
      requires c.Challenge?
      modifies this
      ensures r == QqPollResult(b, ev, 0)
      ensures log == old(log) + QqPollEffects(b, ev, c, 0)
      ensures users == UsersAfter(old(users), botId, r)
      ensures binds == BindsAfter(old(binds), botId, r)
    {
      ghost var start := log;
      ghost var polled: seq<Effect> := [];
      var attempts: nat := 0;
      while attempts < MaxLoginAttempts
        invariant attempts <= MaxLoginAttempts
        invariant log == start + polled
        invariant QqPollEffects(b, ev, c, 0) == polled + QqPollEffects(b, ev, c, attempts)
        invariant QqPollResult(b, ev, 0) == QqPollResult(b, ev, attempts)
        invariant users == old(users) && binds == old(binds)
        decreases MaxLoginAttempts - attempts
      {
        var done;
        done, r := PollQqOnce(b, ev, c, attempts);
        if done {
          SeqAssoc(start, polled, QqPollEffects(b, ev, c, attempts));
          return;
        }
        QqPendingStep(b, ev, c, attempts);
        SeqAssoc(polled, [QqPollCall(c), Sleep], QqPollEffects(b, ev, c, attempts + 1));
        polled := polled + [QqPollCall(c), Sleep];
        attempts := attempts + 1;
        log := log + [Sleep];
      }
      QqPollsExhausted(b, ev, c, attempts);
      log := log + [Effect.Send(Text(TimeoutText), true)];
      SeqAssoc(start, polled, [Effect.Send(Text(TimeoutText), true)]);
      return None;
    }

    /** `_login_with_wechat(bot, ev)` */
    method LoginWithWechat(b: Backend, ev: Event) returns (r: Option<UserData>)
      modifies this
      ensures r == WxResult(b, ev)
      ensures log == old(log) + WxEffects(b, ev)
      ensures users == UsersAfter(old(users), botId, r)
      ensures binds == BindsAfter(old(binds), botId, r)
    {
      ghost var start := log;
      log := log + [Call(WechatLoginQr)];
      var res := b.wxQr;
      if res.Fail? {
        log := log + [Effect.Send(Text("获取二维码失败：" + FailText(res.message)), false)];
        return None;
      }
      var imgUrl := res.value.qrCode;
      var uuid := res.value.uuid;
      log := log + [Call(FetchImage(imgUrl))];
      var img := b.wxImage;
      if img.None? {
        log := log + [Effect.Send(Text("获取二维码图片失败，请重试"), true)];
        return None;
      }
      log := log + [Effect.Send(QrPrompt("请打开手机微信使用摄像头扫码", img.value), true)];
      ghost var prompt := [Call(WechatLoginQr), Call(FetchImage(imgUrl)),
                           Effect.Send(QrPrompt("请打开手机微信使用摄像头扫码", img.value), true)];
      assert log == start + prompt;
      assert WxEffects(b, ev) == prompt + WxPollEffects(b, ev, uuid, 0);
      r := PollWechat(b, ev, uuid);
      SeqAssoc(start, prompt, WxPollEffects(b, ev, uuid, 0));
    }

    /** One pass of the body of the `_login_with_wechat` loop, up to the attempt
        count: poll once and, on a decisive status, finish the login. `done` is
        false exactly when the status says "not yet". */
    method PollWechatOnce(b: Backend, ev: Event, uuid: string, attempts: nat) returns (done: bool, r: Option<UserData>)
      requires attempts < MaxLoginAttempts
      modifies this
      ensures done == !WxPending(b.wxPoll(attempts))
      ensures done ==> r == WxPollResult(b, ev, attempts)
      ensures done ==> log == old(log) + WxPollEffects(b, ev, uuid, attempts)
      ensures !done ==> log == old(log) + [Call(WechatLoginStatus(uuid))]
      ensures done ==> users == UsersAfter(old(users), botId, r) && binds == BindsAfter(old(binds), botId, r)
      ensures !done ==> users == old(users) && binds == old(binds)
    {
      log := log + [Call(WechatLoginStatus(uuid))];
      var st := b.wxPoll(attempts);
      if st.status && st.code == 3 {
        var wxCode := st.wxCode;
        log := log + [Call(WechatAccessToken(wxCode))];
        var tokenRes := b.wxToken(wxCode);
        r := ProcessLoginResult(b, ev, tokenRes, "wx");
        return true, r;
      } else if !st.status {
        log := log + [Effect.Send(Text("登录失败：" + FailText(st.message)), true)];
        return true, None;
      }
      return false, None;
    }

    /** The `while attempts < MAX_LOGIN_ATTEMPTS` loop of `_login_with_wechat`. */
    method PollWechat(b: Backend, ev: Event, uuid: string) returns (r: Option<UserData>)
      modifies this
      ensures r == WxPollResult(b, ev, 0)
      ensures log == old(log) + WxPollEffects(b, ev, uuid, 0)
      ensures users == UsersAfter(old(users), botId, r)
      ensures binds == BindsAfter(old(binds), botId, r)
    {
      ghost var start := log;
      ghost var polled: seq<Effect> := [];
      var attempts: nat := 0;
      while attempts < MaxLoginAttempts
        invariant attempts <= MaxLoginAttempts
        invariant log == start + polled
        invariant WxPollEffects(b, ev, uuid, 0) == polled + WxPollEffects(b, ev, uuid, attempts)
        invariant WxPollResult(b, ev, 0) == WxPollResult(b, ev, attempts)
        invariant users == old(users) && binds == old(binds)
        decreases MaxLoginAttempts - attempts
      {
        ghost var rest := WxPollEffects(b, ev, uuid, attempts);
        var done;
        done, r := PollWechatOnce(b, ev, uuid, attempts);
        if done {
          SeqAssoc(start, polled, rest);
          return;
        }
        attempts := attempts + 1;
        if attempts >= MaxLoginAttempts {
          WxLastPoll(b, ev, uuid, attempts - 1);
          log := log + [Effect.Send(Text(TimeoutText), true)];
          SeqAssoc(start, polled, rest);
          return None;
        }
        log := log + [Sleep];
        WxPendingStep(b, ev, uuid, attempts - 1);
        SeqAssoc(polled, [Call(WechatLoginStatus(uuid)), Sleep], WxPollEffects(b, ev, uuid, attempts));
        polled := polled + [Call(WechatLoginStatus(uuid)), Sleep];
      }
      return None;
    }

    /** `login_in(bot, ev)` */
    method LoginIn(b: Backend, ev: Event) returns (r: Option<UserData>)
      modifies this
      ensures r == LoginInResult(b, ev)
      ensures log == old(log) + LoginInEffects(b, ev)
      ensures users == UsersAfter(old(users), botId, r)
      ensures binds == BindsAfter(old(binds), botId, r)
    {
      var platform := if ev.text != "" then Lower(ev.text) else "qq";
      if platform == "" || platform == "qq" {
        platform := "qq";
      } else if platform == "微信" {
        platform := "wx";
      } else {
        log := log + [Effect.Send(Text("平台参数错误，请使用QQ或微信"), true)];
        return None;
      }
      if platform == "qq" {
        r := LoginWithQq(b, ev);
      } else {
        r := LoginWithWechat(b, ev);
      }
    }
  }

  /** A "not yet" QQ answer adds a poll and a sleep and defers to the next poll. */
  lemma QqPendingStep(b: Backend, ev: Event, c: SigMessage, n: nat)
    requires c.Challenge? && n < MaxLoginAttempts && QqPending(b.qqPoll(n))
    ensures QqPollEffects(b, ev, c, n) == [QqPollCall(c), Sleep] + QqPollEffects(b, ev, c, n + 1)
    ensures QqPollResult(b, ev, n) == QqPollResult(b, ev, n + 1)
  {
  }

  lemma QqPollsExhausted(b: Backend, ev: Event, c: SigMessage, n: nat)
    requires c.Challenge? && n >= MaxLoginAttempts
    ensures QqPollEffects(b, ev, c, n) == [Send(Text(TimeoutText), true)]
    ensures QqPollResult(b, ev, n) == None
  {
  }

  /** A "not yet" WeChat answer before the last poll adds a poll and a sleep. */
  lemma WxPendingStep(b: Backend, ev: Event, uuid: string, n: nat)
    requires n + 1 < MaxLoginAttempts && WxPending(b.wxPoll(n))
    ensures WxPollEffects(b, ev, uuid, n) == [Call(WechatLoginStatus(uuid)), Sleep] + WxPollEffects(b, ev, uuid, n + 1)
    ensures WxPollResult(b, ev, n) == WxPollResult(b, ev, n + 1)
  {
  }

  /** A "not yet" answer to the last WeChat poll ends with the timeout message. */
  lemma WxLastPoll(b: Backend, ev: Event, uuid: string, n: nat)
    requires n + 1 == MaxLoginAttempts && WxPending(b.wxPoll(n))
    ensures WxPollEffects(b, ev, uuid, n) == [Call(WechatLoginStatus(uuid)), Send(Text(TimeoutText), true)]
    ensures WxPollResult(b, ev, n) == None
  {
  }

  // ---------------------------------------------------------------------------
  // Properties of the flow
  // ---------------------------------------------------------------------------

  /** What an effect is, for counting. Status polls are told apart from the other calls. */
  datatype Kind = SendKind | SleepKind | PollKind | CallKind | StoreKind

  function KindOf(e: Effect): Kind {
    match e
    case Send(_, _) => SendKind
    case Sleep => SleepKind
    case Call(api) => if api.QqLoginStatus? || api.WechatLoginStatus? then PollKind else CallKind
    case StoreUser(_) => StoreKind
    case StoreBind(_) => StoreKind
    case StoreRow(_, _) => StoreKind
    case DiffReply(_, _) => SendKind
  }

  /** The number of effects of kind `k` in `es`. */
  function Count(es: seq<Effect>, k: Kind): nat {
    if es == [] then 0 else (if KindOf(es[0]) == k then 1 else 0) + Count(es[1..], k)
  }

  /** 1 when the `i`-th effect exists and has kind `k`. */
  function KindAt(es: seq<Effect>, i: nat, k: Kind): nat {
    if i < |es| && KindOf(es[i]) == k then 1 else 0
  }

  lemma {:induction false} CountAppend(a: seq<Effect>, b: seq<Effect>, k: Kind)
    ensures Count(a + b, k) == Count(a, k) + Count(b, k)
  {
    if a == [] {
      assert a + b == b;
    } else {
      assert (a + b)[0] == a[0];
      assert (a + b)[1..] == a[1..] + b;
      CountAppend(a[1..], b, k);
    }
  }

  lemma CountAppendAll(a: seq<Effect>, b: seq<Effect>)
    ensures forall k :: Count(a + b, k) == Count(a, k) + Count(b, k)
  {
    forall k {
      CountAppend(a, b, k);
    }
  }

  /** The counts in a short log, element by element. */
  lemma {:induction false} CountShort(es: seq<Effect>)
    requires |es| <= 5
    ensures forall k :: Count(es, k) == KindAt(es, 0, k) + KindAt(es, 1, k) + KindAt(es, 2, k) + KindAt(es, 3, k) + KindAt(es, 4, k)
  {
    if es != [] {
      CountShort(es[1..]);
    }
  }

  lemma {:induction false} CountRepeat(e: seq<Effect>, n: nat, k: Kind)
    ensures Count(Repeat(e, n), k) == n * Count(e, k)
  {
    if n > 0 {
      CountRepeat(e, n - 1, k);
      CountAppend(Repeat(e, n - 1), e, k);
    }
  }

  /** The token, bind and player steps send exactly one message, and write the
      user and then the bind row, both of the returned data, exactly when all
      three answers are successes; otherwise they write nothing. */
  lemma ProcessOutcome(b: Backend, ev: Event, res: Reply<Token>, platform: string)
    ensures ProcessResult(b, ev, res, platform).Some? <==> res.Ok? && b.bind.Ok? && b.playerInfo.Ok?
    ensures Count(ProcessEffects(b, ev, res, platform), SendKind) == 1
    ensures Count(ProcessEffects(b, ev, res, platform), PollKind) == 0
    ensures Count(ProcessEffects(b, ev, res, platform), SleepKind) == 0
    ensures Count(ProcessEffects(b, ev, res, platform), StoreKind)
         == if ProcessResult(b, ev, res, platform).Some? then 2 else 0
    ensures var r := ProcessResult(b, ev, res, platform);
            var es := ProcessEffects(b, ev, res, platform);
            r.Some? ==> |es| == 5 && es[2] == StoreUser(r.value) && es[3] == StoreBind(r.value)
                        && r.value.qqId == ev.userId && r.value.platform == platform
                        && r.value.accessToken == res.value.accessToken && r.value.openid == res.value.openid
                        && r.value.group == GroupOf(ev)
                        && es[4] == Send(Text(SuccessText(b.playerInfo.value)), true)
  {
    CountShort(ProcessEffects(b, ev, res, platform));
  }

  const LoginErrorText: string := "登录过程发生错误，请稍后重试"

  /**
   * `_process_login_result` as written: `DFUser.insert_user(bot.bot_id, user_data)`
   * hands a string to a parameter that expects a `Bot`, so reading `bot_id` from
   * it raises before any row is written. The exception leaves the login flow,
   * whose last step this is, and the handler of `login_in` sends its error text.
   */
  function ProcessEffectsAsWritten(b: Backend, ev: Event, res: Reply<Token>, platform: string): seq<Effect> {
    var es := ProcessEffects(b, ev, res, platform);
    if ProcessResult(b, ev, res, platform).Some? && |es| >= 2 then es[..2] + [Send(Text(LoginErrorText), true)]
    else es
  }

  /**
   * As written, a login whose token, bind and player queries all succeed stores
   * no row and ends in the error text instead of the success message; the
   * intended flow stores both rows and reports the character.
   */
  lemma StoreCallsRaise(b: Backend, ev: Event, res: Reply<Token>, platform: string)
    requires res.Ok? && b.bind.Ok? && b.playerInfo.Ok?
    ensures var es := ProcessEffectsAsWritten(b, ev, res, platform);
      |es| == 3 && Count(es, StoreKind) == 0 && es[2] == Send(Text(LoginErrorText), true)
    ensures var es := ProcessEffects(b, ev, res, platform);
      Count(es, StoreKind) == 2 && es[|es| - 1] == Send(Text(SuccessText(b.playerInfo.value)), true)
  {
    ProcessOutcome(b, ev, res, platform);
    CountShort(ProcessEffectsAsWritten(b, ev, res, platform));
  }

  /** The stored group is the event's group in a group chat, and 0 otherwise. */
  lemma GroupOfCases(ev: Event)
    ensures GroupOf(ev) == Zero <==> ev.groupId == None || ev.groupId == Some("")
    ensures GroupOf(ev).Group? ==> Some(GroupOf(ev).id) == ev.groupId
  {
  }

  /** Once the challenge is out, the QQ loop from poll `n` sends exactly one
      message, sleeps only between polls, polls at most once per remaining
      attempt, and writes the store exactly when it returns user data. */
  predicate QqOutcomeFrom(b: Backend, ev: Event, c: SigMessage, n: nat)
    requires c.Challenge?
  {
    var es := QqPollEffects(b, ev, c, n);
    Count(es, SendKind) == 1
    && Count(es, SleepKind) <= Count(es, PollKind) <= MaxLoginAttempts - n
    && Count(es, StoreKind) == if QqPollResult(b, ev, n).Some? then 2 else 0
  }

  lemma {:induction false} QqPollOutcome(b: Backend, ev: Event, c: SigMessage, n: nat)
    requires c.Challenge? && n <= MaxLoginAttempts
    ensures QqOutcomeFrom(b, ev, c, n)
    decreases MaxLoginAttempts - n
  {
    if n >= MaxLoginAttempts {
      CountShort(QqPollEffects(b, ev, c, n));
    } else if b.qqPoll(n).code == 0 {
      QqFoundOutcome(b, ev, c, n);
    } else if QqRejected(b.qqPoll(n)) || b.qqPoll(n).code == -1 {
      CountShort(QqPollEffects(b, ev, c, n));
    } else {
      QqPollOutcome(b, ev, c, n + 1);
      QqStepOutcome(b, ev, c, n);
    }
  }

  lemma QqFoundOutcome(b: Backend, ev: Event, c: SigMessage, n: nat)
    requires c.Challenge? && n < MaxLoginAttempts && b.qqPoll(n).code == 0
    ensures QqOutcomeFrom(b, ev, c, n)
  {
    var st := b.qqPoll(n);
    var pre := [QqPollCall(c), Call(AccessToken(st.cookie))];
    var post := ProcessEffects(b, ev, b.qqToken(st.cookie), "qq");
    assert QqPollEffects(b, ev, c, n) == pre + post;
    ProcessOutcome(b, ev, b.qqToken(st.cookie), "qq");
    CountShort(pre);
    CountAppendAll(pre, post);
  }

  lemma QqStepOutcome(b: Backend, ev: Event, c: SigMessage, n: nat)
    requires c.Challenge? && n < MaxLoginAttempts && QqPending(b.qqPoll(n))
    requires QqOutcomeFrom(b, ev, c, n + 1)
    ensures QqOutcomeFrom(b, ev, c, n)
  {
    var pre := [QqPollCall(c), Sleep];
    var post := QqPollEffects(b, ev, c, n + 1);
    assert QqPollEffects(b, ev, c, n) == pre + post;
    assert QqPollResult(b, ev, n) == QqPollResult(b, ev, n + 1);
    CountShort(pre);
    CountAppendAll(pre, post);
  }

  /** "Not yet" answers from poll `m` up to poll `n` each add one poll and one
      sleep, and change nothing else. */
  lemma {:induction false} QqPollPending(b: Backend, ev: Event, c: SigMessage, m: nat, n: nat)
    requires c.Challenge? && m <= n <= MaxLoginAttempts
    requires forall k :: m <= k < n ==> QqPending(b.qqPoll(k))
    ensures QqPollEffects(b, ev, c, m) == Repeat([QqPollCall(c), Sleep], n - m) + QqPollEffects(b, ev, c, n)
    ensures QqPollResult(b, ev, m) == QqPollResult(b, ev, n)
    decreases n - m
  {
    if m < n {
      QqPollPending(b, ev, c, m, n - 1);
      assert QqPending(b.qqPoll(n - 1));
      RepeatStep([QqPollCall(c), Sleep], n - 1 - m, QqPollEffects(b, ev, c, n));
    }
  }

  /** A QR code never scanned: 120 polls with a sleep after each, then the
      timeout message, and nothing returned. */
  lemma QqNeverScanned(b: Backend, ev: Event, c: SigMessage)
    requires c.Challenge?
    requires forall k :: 0 <= k < MaxLoginAttempts ==> QqPending(b.qqPoll(k))
    ensures QqPollEffects(b, ev, c, 0)
         == Repeat([QqPollCall(c), Sleep], MaxLoginAttempts) + [Send(Text(TimeoutText), true)]
    ensures QqPollResult(b, ev, 0) == None
    ensures Count(QqPollEffects(b, ev, c, 0), PollKind) == MaxLoginAttempts
    ensures Count(QqPollEffects(b, ev, c, 0), SleepKind) == MaxLoginAttempts
  {
    QqPollPending(b, ev, c, 0, MaxLoginAttempts);
    var step := [QqPollCall(c), Sleep];
    var tail := [Send(Text(TimeoutText), true)];
    assert QqPollEffects(b, ev, c, MaxLoginAttempts) == tail;
    NeverScannedCounts(step, tail, MaxLoginAttempts);
  }

  lemma NeverScannedCounts(step: seq<Effect>, tail: seq<Effect>, n: nat)
    requires |step| == 2 && KindOf(step[0]) == PollKind && step[1] == Sleep
    requires |tail| == 1 && KindOf(tail[0]) == SendKind
    ensures Count(Repeat(step, n) + tail, PollKind) == n
    ensures Count(Repeat(step, n) + tail, SleepKind) == n
  {
    CountShort(step);
    CountShort(tail);
    assert Count(step, PollKind) == 1 && Count(step, SleepKind) == 1;
    assert Count(tail, PollKind) == 0 && Count(tail, SleepKind) == 0;
    CountRepeat(step, n, PollKind);
    CountRepeat(step, n, SleepKind);
    CountAppend(Repeat(step, n), tail, PollKind);
    CountAppend(Repeat(step, n), tail, SleepKind);
  }

  /** QR code scanned at poll `n`: `n` sleeps before it, the cookie of that
      answer is exchanged for the token, and the login result is that of the
      exchange. */
  lemma QqScannedAt(b: Backend, ev: Event, c: SigMessage, n: nat)
    requires c.Challenge? && n < MaxLoginAttempts
    requires forall k :: 0 <= k < n ==> QqPending(b.qqPoll(k))
    requires b.qqPoll(n).code == 0
    ensures QqPollEffects(b, ev, c, 0)
         == Repeat([QqPollCall(c), Sleep], n) + [QqPollCall(c), Call(AccessToken(b.qqPoll(n).cookie))]
            + ProcessEffects(b, ev, b.qqToken(b.qqPoll(n).cookie), "qq")
    ensures QqPollResult(b, ev, 0) == ProcessResult(b, ev, b.qqToken(b.qqPoll(n).cookie), "qq")
  {
    QqPollPending(b, ev, c, 0, n);
  }

  /** A failed challenge request polls nothing and ends with one message, not
      addressed to the sender; otherwise one QR prompt precedes the loop. */
  lemma QqLoginOutcome(b: Backend, ev: Event)
    ensures SigFails(b.sig) ==> QqResult(b, ev) == None && Count(QqEffects(b, ev), PollKind) == 0
                                && Count(QqEffects(b, ev), SendKind) == 1
    ensures !SigFails(b.sig) ==> Count(QqEffects(b, ev), SendKind) == 2
    ensures Count(QqEffects(b, ev), StoreKind) == if QqResult(b, ev).Some? then 2 else 0
  {
    if SigFails(b.sig) {
      CountShort(QqEffects(b, ev));
    } else {
      var prompt := [Call(GetSig), Send(QrPrompt("请打开手机qq使用摄像头扫码", b.sig.message.image), true)];
      QqPollOutcome(b, ev, b.sig.message, 0);
      CountShort(prompt);
      CountAppendAll(prompt, QqPollEffects(b, ev, b.sig.message, 0));
    }
  }

  /** The WeChat loop, from a poll `n` that happens, sends exactly one message,
      sleeps only between polls (so never after the last one), and writes the
      store exactly when it returns user data. */
  predicate WxOutcomeFrom(b: Backend, ev: Event, uuid: string, n: nat) {
    var es := WxPollEffects(b, ev, uuid, n);
    Count(es, SendKind) == 1
    && Count(es, SleepKind) < Count(es, PollKind) <= MaxLoginAttempts - n
    && Count(es, StoreKind) == if WxPollResult(b, ev, n).Some? then 2 else 0
  }

  lemma {:induction false} WxPollOutcome(b: Backend, ev: Event, uuid: string, n: nat)
    requires n < MaxLoginAttempts
    ensures WxOutcomeFrom(b, ev, uuid, n)
    decreases MaxLoginAttempts - n
  {
    var st := b.wxPoll(n);
    if st.status && st.code == 3 {
      WxFoundOutcome(b, ev, uuid, n);
    } else if !st.status || n + 1 >= MaxLoginAttempts {
      CountShort(WxPollEffects(b, ev, uuid, n));
    } else {
      WxPollOutcome(b, ev, uuid, n + 1);
      WxStepOutcome(b, ev, uuid, n);
    }
  }

  lemma WxFoundOutcome(b: Backend, ev: Event, uuid: string, n: nat)
    requires n < MaxLoginAttempts && b.wxPoll(n).status && b.wxPoll(n).code == 3
    ensures WxOutcomeFrom(b, ev, uuid, n)
  {
    var st := b.wxPoll(n);
    var pre := [Call(WechatLoginStatus(uuid)), Call(WechatAccessToken(st.wxCode))];
    var post := ProcessEffects(b, ev, b.wxToken(st.wxCode), "wx");
    assert WxPollEffects(b, ev, uuid, n) == pre + post;
    ProcessOutcome(b, ev, b.wxToken(st.wxCode), "wx");
    CountShort(pre);
    CountAppendAll(pre, post);
  }

  lemma WxStepOutcome(b: Backend, ev: Event, uuid: string, n: nat)
    requires n + 1 < MaxLoginAttempts && WxPending(b.wxPoll(n))
    requires WxOutcomeFrom(b, ev, uuid, n + 1)
    ensures WxOutcomeFrom(b, ev, uuid, n)
  {
    var pre := [Call(WechatLoginStatus(uuid)), Sleep];
    var post := WxPollEffects(b, ev, uuid, n + 1);
    assert WxPollEffects(b, ev, uuid, n) == pre + post;
    assert WxPollResult(b, ev, n) == WxPollResult(b, ev, n + 1);
    CountShort(pre);
    CountAppendAll(pre, post);
  }

  /** "Not yet" answers from WeChat poll `m` up to poll `n` each add one poll and
      one sleep, as long as poll `n` is not the last. */
  lemma {:induction false} WxPollPending(b: Backend, ev: Event, uuid: string, m: nat, n: nat)
    requires m <= n < MaxLoginAttempts
    requires forall k :: m <= k < n ==> WxPending(b.wxPoll(k))
    ensures WxPollEffects(b, ev, uuid, m)
         == Repeat([Call(WechatLoginStatus(uuid)), Sleep], n - m) + WxPollEffects(b, ev, uuid, n)
    ensures WxPollResult(b, ev, m) == WxPollResult(b, ev, n)
    decreases n - m
  {
    if m < n {
      WxPollPending(b, ev, uuid, m, n - 1);
      assert WxPending(b.wxPoll(n - 1));
      RepeatStep([Call(WechatLoginStatus(uuid)), Sleep], n - 1 - m, WxPollEffects(b, ev, uuid, n));
    }
  }

  /** A WeChat QR code never confirmed: 119 polls with a sleep after each, the
      120th poll, then the timeout message, and nothing returned. */
  lemma WxNeverScanned(b: Backend, ev: Event, uuid: string)
    requires forall k :: 0 <= k < MaxLoginAttempts ==> WxPending(b.wxPoll(k))
    ensures WxPollEffects(b, ev, uuid, 0)
         == Repeat([Call(WechatLoginStatus(uuid)), Sleep], MaxLoginAttempts - 1)
            + [Call(WechatLoginStatus(uuid)), Send(Text(TimeoutText), true)]
    ensures WxPollResult(b, ev, 0) == None
  {
    WxPollPending(b, ev, uuid, 0, MaxLoginAttempts - 1);
  }

  /** WeChat login confirmed at poll `n`: `n` sleeps before it, and the code of
      that answer is exchanged for the token. */
  lemma WxScannedAt(b: Backend, ev: Event, uuid: string, n: nat)
    requires n < MaxLoginAttempts
    requires forall k :: 0 <= k < n ==> WxPending(b.wxPoll(k))
    requires b.wxPoll(n).status && b.wxPoll(n).code == 3
    ensures WxPollEffects(b, ev, uuid, 0)
         == Repeat([Call(WechatLoginStatus(uuid)), Sleep], n)
            + [Call(WechatLoginStatus(uuid)), Call(WechatAccessToken(b.wxPoll(n).wxCode))]
            + ProcessEffects(b, ev, b.wxToken(b.wxPoll(n).wxCode), "wx")
    ensures WxPollResult(b, ev, 0) == ProcessResult(b, ev, b.wxToken(b.wxPoll(n).wxCode), "wx")
  {
    WxPollPending(b, ev, uuid, 0, n);
  }

  /** The platform: empty text or any casing of "qq" is QQ, exactly "微信" is
      WeChat, anything else is refused. */
  lemma SelectPlatformCases(t: string)
    ensures SelectPlatform(t) == Qq <==> t == "" || Lower(t) == "qq"
    ensures SelectPlatform(t) == Wechat <==> t == "微信"
  {
    if Lower(t) == "微信" {
      assert LowerChar(t[0]) == '微' && LowerChar(t[1]) == '信';
      assert t == "微信";
    }
    if t == "微信" {
      assert Lower(t) == "微信";
    }
  }

  /** Whatever the script and the text, a login writes the user and the bind
      rows exactly when it returns user data, and never more than once each. */
  lemma LoginStoresIffSuccess(b: Backend, ev: Event)
    ensures Count(LoginInEffects(b, ev), StoreKind) == if LoginInResult(b, ev).Some? then 2 else 0
  {
    match SelectPlatform(ev.text)
    case Qq => QqLoginOutcome(b, ev);
    case Wechat => WxLoginOutcome(b, ev);
    case BadPlatform => CountShort(LoginInEffects(b, ev));
  }

  /** A failed QR request or image download polls nothing, returns nothing and
      ends with one message; otherwise one QR prompt precedes the loop, which
      adds one message of its own. The store is written exactly on success. */
  lemma WxLoginOutcome(b: Backend, ev: Event)
    ensures b.wxQr.Fail? || b.wxImage.None? ==>
              WxResult(b, ev) == None && Count(WxEffects(b, ev), PollKind) == 0
              && Count(WxEffects(b, ev), SendKind) == 1
    ensures b.wxQr.Ok? && b.wxImage.Some? ==> Count(WxEffects(b, ev), SendKind) == 2
    ensures Count(WxEffects(b, ev), StoreKind) == if WxResult(b, ev).Some? then 2 else 0
  {
    if b.wxQr.Ok? && b.wxImage.Some? {
      var pre := [Call(WechatLoginQr), Call(FetchImage(b.wxQr.value.qrCode)),
                  Send(QrPrompt("请打开手机微信使用摄像头扫码", b.wxImage.value), true)];
      var post := WxPollEffects(b, ev, b.wxQr.value.uuid, 0);
      assert WxEffects(b, ev) == pre + post;
      WxPollOutcome(b, ev, b.wxQr.value.uuid, 0);
      CountShort(pre);
      CountAppendAll(pre, post);
    } else {
      CountShort(WxEffects(b, ev));
    }
  }

  /** A platform text other than QQ or WeChat sends one message and starts no login. */
  lemma BadPlatformRefused(b: Backend, ev: Event)
    requires SelectPlatform(ev.text) == BadPlatform
    ensures LoginInResult(b, ev) == None
    ensures |LoginInEffects(b, ev)| == 1 && Count(LoginInEffects(b, ev), SendKind) == 1
  {
    CountShort(LoginInEffects(b, ev));
  }
}
