/** The chat commands of DeltaUID/Delta_login/__init__.py: the 登录 / 绑定 /
    切换 / 删除 dispatch, `add_ck` (a credential block pasted as text), `out_l`
    (the export of the stored credentials) and `get_response_message`.

    The commands run on a `LoginSession`: their replies and calls go to its
    log, and `add_ck` writes its user table. The answers of the bind table's
    queries are inputs (`BindAnswers`). */
module DeltaLoginCommands {
  import opened Text
  import opened DeltaLogin

  /** `f"{MSG_PREFIX} {s}"` with `MSG_PREFIX = "[DF]"` */
  function Tagged(s: string): string {
    "[DF] " + s
  }

  // ---------------------------------------------------------------------------
  // get_response_message
  // ---------------------------------------------------------------------------

  const DeletedText: string := "[DF] 删除UID成功！"
  const NotBoundText: string := "[DF] 该UID不在已绑定列表中！"
  const FailurePrefix: string := "[DF] 操作失败，错误码: "

  /** `get_response_message(retcode)`: two fixed texts, and the code quoted for any other. */
  function ResponseMessage(code: int): string {
    if code == 0 then DeletedText
    else if code == -1 then NotBoundText
    else FailurePrefix + IntToString(code)
  }

  /** Reads the code back out of a reply of `get_response_message`. */
  function CodeOfMessage(msg: string): Option<int> {
    if msg == DeletedText then Some(0)
    else if msg == NotBoundText then Some(-1)
    else if StartsWith(msg, FailurePrefix) then ParseInt(msg[|FailurePrefix|..])
    else None
  }

  /** Every code can be read back from its reply, so no two codes share one. */
  lemma ResponseMessageRoundTrip(code: int)
    ensures CodeOfMessage(ResponseMessage(code)) == Some(code)
  {
    if code != 0 && code != -1 {
      var msg := ResponseMessage(code);
      assert msg[5] == '操';
      assert msg != DeletedText && msg != NotBoundText;
      assert msg[..|FailurePrefix|] == FailurePrefix;
      assert msg[|FailurePrefix|..] == IntToString(code);
      IntToStringRoundTrip(code);
    }
  }

  lemma ResponseMessageInjective(a: int, b: int)
    requires ResponseMessage(a) == ResponseMessage(b)
    ensures a == b
  {
    ResponseMessageRoundTrip(a);
    ResponseMessageRoundTrip(b);
  }

  /** The reply table of the 删除 command. */
  const DeleteTable: map<int, string> := map[0 := Tagged("删除UID成功！"), -1 := Tagged("该UID不在已绑定列表中！")]

  /** The 删除 reply table says what `get_response_message` says for its codes. */
  lemma DeleteTableIsResponseMessage()
    ensures forall code :: code in DeleteTable ==> DeleteTable[code] == ResponseMessage(code)
  {
    assert DeleteTable.Keys == {0, -1};
  }

  /** The reply table of the 登录 and 绑定 commands for the uid `uid`. */
  function BindTable(uid: string): map<int, string> {
    map[0 := Tagged("绑定UID" + uid + "成功！"),
        -1 := Tagged("UID" + uid + "的位数不正确！"),
        -2 := Tagged("UID" + uid + "已经绑定过了！"),
        -3 := Tagged("你输入了错误的格式!")]
  }

  // ---------------------------------------------------------------------------
  // The 登录 / 绑定 / 切换 / 删除 command
  // ---------------------------------------------------------------------------

  datatype Route = LoginRoute | BindRoute | SwitchRoute | DeleteRoute | NoRoute

  /** The branch of `login(bot, ev)` that `ev.command` takes: the first keyword it contains. */
  function RouteOf(command: string): Route {
    if Contains(command, "登录") then LoginRoute
    else if Contains(command, "绑定") then BindRoute
    else if Contains(command, "切换") then SwitchRoute
    else if Contains(command, "删除") then DeleteRoute
    else NoRoute
  }

  /** The answers of the bind table: to `insert_uid`, to `switch_uid_by_game`,
      the current uid from `get_uid_by_game`, and to `delete_uid`. */
  datatype BindAnswers = BindAnswers(
    insertUid: string -> int,
    switchUid: string -> int,
    currentUid: Option<string>,
    deleteUid: string -> int)

  function InsertUidEffects(d: BindAnswers, uid: string): seq<Effect> {
    [Call(InsertUid(uid)), DiffReply(d.insertUid(uid), BindTable(uid))]
  }

  function SwitchEffects(d: BindAnswers, uid: string): seq<Effect> {
    var code := d.switchUid(uid);
    [Call(SwitchUid(uid))]
    + if code == 0 then [Send(Text(Tagged("切换UID成功！")), false)]
      else if code == -3 then
        [Call(GetUid)]
        + if d.currentUid.Some? && d.currentUid.value != "" then
            [Send(Text(Tagged("你目前只绑定了一个UID" + d.currentUid.value + ", 无法切换!")), false)]
          else [Send(Text(Tagged("你尚未绑定任何UID, 无法切换!")), false)]
      else [Send(Text(Tagged("尚未绑定该UID")), false)]
  }

  function DeleteEffects(d: BindAnswers): seq<Effect> {
    [Call(GetUid)]
    + match d.currentUid
      case None => [Send(Text(Tagged("你尚未绑定任何UID, 无法删除!")), false)]
      case Some(now) => [Call(DeleteUid(now)), DiffReply(d.deleteUid(now), DeleteTable)]
  }

  /** What the 登录 branch does after `login_in`. */
  function LoginReply(b: Backend, d: BindAnswers, ev: Event): seq<Effect> {
    match LoginInResult(b, ev)
    case None => [Send(Text(Tagged("登录失败，请检查输入")), false)]
    case Some(u) => InsertUidEffects(d, u.openid)
  }

  /** `login(bot, ev)`: what it does. */
  function CommandEffects(b: Backend, d: BindAnswers, ev: Event): seq<Effect> {
    var uid := Strip(ev.text);
    match RouteOf(ev.command)
    case LoginRoute =>
      LoginInEffects(b, ev) + LoginReply(b, d, ev)
    case BindRoute => InsertUidEffects(d, uid)
    case SwitchRoute => SwitchEffects(d, uid)
    case DeleteRoute => DeleteEffects(d)
    case NoRoute => []
  }

  /** Only the 登录 branch logs in, so only it writes the tables. */
  function CommandLogin(b: Backend, ev: Event): Option<UserData> {
    if RouteOf(ev.command) == LoginRoute then LoginInResult(b, ev) else None
  }

  /** `login(bot, ev)` */
  method Command(s: LoginSession, b: Backend, d: BindAnswers, ev: Event)
    modifies s
    ensures s.log == old(s.log) + CommandEffects(b, d, ev)
    ensures s.users == UsersAfter(old(s.users), s.botId, CommandLogin(b, ev))
    ensures s.binds == BindsAfter(old(s.binds), s.botId, CommandLogin(b, ev))
  {
    var uid := Strip(ev.text);
    if Contains(ev.command, "登录") {
      LoginCommand(s, b, d, ev);
    } else if Contains(ev.command, "绑定") {
      BindCommand(s, d, uid);
    } else if Contains(ev.command, "切换") {
      SwitchCommand(s, d, uid);
    } else if Contains(ev.command, "删除") {
      DeleteCommand(s, d);
    }
  }

  /** The 登录 branch: `login_in`, then the uid insert when it succeeds. */
  method LoginCommand(s: LoginSession, b: Backend, d: BindAnswers, ev: Event)
    modifies s
    ensures s.log == old(s.log) + (LoginInEffects(b, ev) + LoginReply(b, d, ev))
    ensures s.users == UsersAfter(old(s.users), s.botId, LoginInResult(b, ev))
    ensures s.binds == BindsAfter(old(s.binds), s.botId, LoginInResult(b, ev))
  {
    ghost var start := s.log;
    var loginInfo := s.LoginIn(b, ev);
    if loginInfo.None? {
      s.log := s.log + [Effect.Send(Text(Tagged("登录失败，请检查输入")), false)];
      SeqAssoc(start, LoginInEffects(b, ev), LoginReply(b, d, ev));
      return;
    }
    var uid := loginInfo.value.openid;
    s.log := s.log + [Call(InsertUid(uid))];
    var data := d.insertUid(uid);
    s.log := s.log + [DiffReply(data, BindTable(uid))];
    SeqAssoc(start, LoginInEffects(b, ev), LoginReply(b, d, ev));
  }

  /** The 绑定 branch. */
  method BindCommand(s: LoginSession, d: BindAnswers, uid: string)
    modifies s
    ensures s.log == old(s.log) + InsertUidEffects(d, uid)
    ensures s.users == old(s.users) && s.binds == old(s.binds)
  {
    s.log := s.log + [Call(InsertUid(uid))];
    var data := d.insertUid(uid);
    s.log := s.log + [DiffReply(data, BindTable(uid))];
  }

  /** The 切换 branch. */
  method SwitchCommand(s: LoginSession, d: BindAnswers, uid: string)
    modifies s
    ensures s.log == old(s.log) + SwitchEffects(d, uid)
    ensures s.users == old(s.users) && s.binds == old(s.binds)
  {
    s.log := s.log + [Call(SwitchUid(uid))];
    var retcode := d.switchUid(uid);
    if retcode == 0 {
      s.log := s.log + [Effect.Send(Text(Tagged("切换UID成功！")), false)];
    } else if retcode == -3 {
      s.log := s.log + [Call(GetUid)];
      var nowUid := d.currentUid;
      if nowUid.Some? && nowUid.value != "" {
        s.log := s.log + [Effect.Send(Text(Tagged("你目前只绑定了一个UID" + nowUid.value + ", 无法切换!")), false)];
      } else {
        s.log := s.log + [Effect.Send(Text(Tagged("你尚未绑定任何UID, 无法切换!")), false)];
      }
    } else {
      s.log := s.log + [Effect.Send(Text(Tagged("尚未绑定该UID")), false)];
    }
  }

  /** The 删除 branch. */
  method DeleteCommand(s: LoginSession, d: BindAnswers)
    modifies s
    ensures s.log == old(s.log) + DeleteEffects(d)
    ensures s.users == old(s.users) && s.binds == old(s.binds)
  {
    s.log := s.log + [Call(GetUid)];
    var nowUid := d.currentUid;
    if nowUid.None? {
      s.log := s.log + [Effect.Send(Text(Tagged("你尚未绑定任何UID, 无法删除!")), false)];
      return;
    }
    s.log := s.log + [Call(DeleteUid(nowUid.value))];
    var data := d.deleteUid(nowUid.value);
    s.log := s.log + [DiffReply(data, DeleteTable)];
  }

  /** The keywords are tested in the order 登录, 绑定, 切换, 删除 and the first one
      contained in the command wins. */
  lemma RouteFirstMatch(command: string)
    ensures RouteOf(command) == LoginRoute <==> Contains(command, "登录")
    ensures RouteOf(command) == BindRoute <==> !Contains(command, "登录") && Contains(command, "绑定")
    ensures RouteOf(command) == SwitchRoute
        <==> !Contains(command, "登录") && !Contains(command, "绑定") && Contains(command, "切换")
    ensures RouteOf(command) == DeleteRoute
        <==> !Contains(command, "登录") && !Contains(command, "绑定") && !Contains(command, "切换")
             && Contains(command, "删除")
  {
  }

  /** No call to `delete_uid` without a current uid: 删除 then sends one message. */
  lemma DeleteNeedsCurrentUid(b: Backend, d: BindAnswers, ev: Event)
    requires RouteOf(ev.command) == DeleteRoute && d.currentUid.None?
    ensures forall e :: e in CommandEffects(b, d, ev) ==> !(e.Call? && e.api.DeleteUid?)
    ensures Count(CommandEffects(b, d, ev), SendKind) == 1
  {
    CountShort(CommandEffects(b, d, ev));
  }

  /** A reply-once log: one message, last, and no store write. */
  predicate RepliesOnce(es: seq<Effect>) {
    Count(es, SendKind) == 1 && |es| > 0 && KindOf(es[|es| - 1]) == SendKind && Count(es, StoreKind) == 0
  }

  lemma TableRepliesOnce(d: BindAnswers, uid: string)
    ensures RepliesOnce(InsertUidEffects(d, uid))
    ensures RepliesOnce(SwitchEffects(d, uid))
    ensures RepliesOnce(DeleteEffects(d))
  {
    CountShort(InsertUidEffects(d, uid));
    CountShort(SwitchEffects(d, uid));
    CountShort(DeleteEffects(d));
  }

  /** 绑定, 切换 and 删除 reply exactly once, and their reply is the last thing
      they do; a 登录 adds one reply of its own to those of the login. Only 登录
      writes to the store. */
  lemma LoginReplyOnce(b: Backend, d: BindAnswers, ev: Event)
    ensures RepliesOnce(LoginReply(b, d, ev))
  {
    CountShort(LoginReply(b, d, ev));
  }

  lemma CommandRepliesOnce(b: Backend, d: BindAnswers, ev: Event)
    ensures RouteOf(ev.command) in {BindRoute, SwitchRoute, DeleteRoute} ==> RepliesOnce(CommandEffects(b, d, ev))
    ensures RouteOf(ev.command) == LoginRoute ==>
              Count(CommandEffects(b, d, ev), SendKind) == Count(LoginInEffects(b, ev), SendKind) + 1
    ensures RouteOf(ev.command) == NoRoute ==> CommandEffects(b, d, ev) == []
  {
    var es := CommandEffects(b, d, ev);
    var uid := Strip(ev.text);
    TableRepliesOnce(d, uid);
    match RouteOf(ev.command)
    case LoginRoute =>
      assert es == LoginInEffects(b, ev) + LoginReply(b, d, ev);
      LoginReplyOnce(b, d, ev);
      CountAppend(LoginInEffects(b, ev), LoginReply(b, d, ev), SendKind);
    case BindRoute =>
      assert es == InsertUidEffects(d, uid);
    case SwitchRoute =>
      assert es == SwitchEffects(d, uid);
    case DeleteRoute =>
      assert es == DeleteEffects(d);
    case NoRoute =>
  }

  // ---------------------------------------------------------------------------
  // add_ck
  // ---------------------------------------------------------------------------

  /** The three credentials `add_ck` collects. */
  datatype Ck = Ck(openid: string, token: string, platform: string)

  datatype Field = OpenIdField | TokenField | PlatformField

  function FieldPrefix(f: Field): string {
    match f
    case OpenIdField => "openid:"
    case TokenField => "token:"
    case PlatformField => "platform:"
  }

  /** The field a line sets: the first of the three prefixes it starts with. */
  function FieldOf(line: string): Option<Field> {
    if StartsWith(line, "openid:") then Some(OpenIdField)
    else if StartsWith(line, "token:") then Some(TokenField)
    else if StartsWith(line, "platform:") then Some(PlatformField)
    else None
  }

  /** `line.replace(prefix, "").strip()` */
  function FieldValue(line: string, f: Field): string {
    Strip(RemoveAll(line, FieldPrefix(f)))
  }

  function Get(ck: Ck, f: Field): string {
    match f
    case OpenIdField => ck.openid
    case TokenField => ck.token
    case PlatformField => ck.platform
  }

  function Set(ck: Ck, f: Field, v: string): (r: Ck)
    ensures Get(r, f) == v
    ensures forall g :: g != f ==> Get(r, g) == Get(ck, g)
  {
    match f
    case OpenIdField => ck.(openid := v)
    case TokenField => ck.(token := v)
    case PlatformField => ck.(platform := v)
  }

  /** One pass of the `for i in text_list` loop. */
  function CkStep(ck: Ck, line: string): Ck {
    match FieldOf(line)
    case Some(f) => Set(ck, f, FieldValue(line, f))
    case None => ck
  }

  /** The credentials after the loop has read `lines`. */
  function CkFold(lines: seq<string>): Ck {
    if lines == [] then Ck("", "", "") else CkStep(CkFold(lines[..|lines| - 1]), lines[|lines| - 1])
  }

  /** `text.strip().split("\n")` */
  function CkLines(text: string): seq<string> {
    SplitOn(Strip(text), '\n')
  }

  /** What `add_ck` stores: nothing with two lines or fewer or with a field left empty. */
  function ParseCk(text: string): Option<Ck> {
    var lines := CkLines(text);
    if |lines| <= 2 then None
    else
      var ck := CkFold(lines);
      if ck.openid == "" || ck.token == "" || ck.platform == "" then None else Some(ck)
  }

  /** The `DFUser` row of a credential block. */
  function CkRow(ck: Ck): UserRow {
    UserRow(ck.openid, ck.platform, ck.token)
  }

  const CkErrorText: string := "[DF] 请正确输入ck信息!"

  /** `add_ck(bot, ev)`: what it does. */
  function AddCkEffects(ev: Event): seq<Effect> {
    match ParseCk(ev.text)
    case None => [Send(Text(CkErrorText), false)]
    case Some(ck) => [StoreRow(ev.userId, CkRow(ck)), Send(Text(Tagged("添加ck成功!")), false)]
  }

  /**
   * `add_ck(bot, ev)` as written: for a well-formed block,
   * `DFUser.insert_user(bot.bot_id, user_data)` raises (a string where a `Bot`
   * is expected) and nothing catches it, so neither the row nor the reply follows.
   */
  function AddCkEffectsAsWritten(ev: Event): seq<Effect> {
    match ParseCk(ev.text)
    case None => [Send(Text(CkErrorText), false)]
    case Some(_) => []
  }

  /** As written, a well-formed block writes nothing and gets no reply; the
      intended handler stores the row and confirms it. */
  lemma AddCkRaises(ev: Event)
    requires ParseCk(ev.text).Some?
    ensures AddCkEffectsAsWritten(ev) == []
    ensures var es := AddCkEffects(ev);
      |es| == 2 && es[0] == StoreRow(ev.userId, CkRow(ParseCk(ev.text).value))
      && es[1] == Send(Text(Tagged("添加ck成功!")), false)
  {
  }

  function UsersAfterCk(users: map<(string, string), UserRow>, botId: string, ev: Event): map<(string, string), UserRow> {
    match ParseCk(ev.text)
    case None => users
    case Some(ck) => users[(ev.userId, botId) := CkRow(ck)]
  }

  /** `add_ck(bot, ev)` */
  method AddCk(s: LoginSession, ev: Event)
    modifies s
    ensures s.log == old(s.log) + AddCkEffects(ev)
    ensures s.users == UsersAfterCk(old(s.users), s.botId, ev)
    ensures s.binds == old(s.binds)
  {
    var text := Strip(ev.text);
    var textList := SplitOn(text, '\n');
    if |textList| <= 2 {
      ParseCkCases(ev.text);
      s.log := s.log + [Effect.Send(Text(CkErrorText), false)];
      return;
    }
    var openid, accessToken, platform := "", "", "";
    assert textList[..0] == [];
    for i := 0 to |textList|
      invariant Ck(openid, accessToken, platform) == CkFold(textList[..i])
      invariant s.log == old(s.log) && s.users == old(s.users) && s.binds == old(s.binds)
    {
      var line := textList[i];
      CkFoldSnoc(textList, i);
      if StartsWith(line, "openid:") {
        openid := Strip(RemoveAll(line, "openid:"));
      } else if StartsWith(line, "token:") {
        accessToken := Strip(RemoveAll(line, "token:"));
      } else if StartsWith(line, "platform:") {
        platform := Strip(RemoveAll(line, "platform:"));
      }
    }
    assert textList[..|textList|] == textList;
    ParseCkCases(ev.text);
    if openid == "" || accessToken == "" || platform == "" {
      s.log := s.log + [Effect.Send(Text(CkErrorText), false)];
      return;
    }
    var row := UserRow(openid, platform, accessToken);
    s.users := s.users[(ev.userId, s.botId) := row];
    s.log := s.log + [StoreRow(ev.userId, row)];
    s.log := s.log + [Effect.Send(Text(Tagged("添加ck成功!")), false)];
  }

  lemma ParseCkCases(text: string)
    ensures |CkLines(text)| <= 2 ==> ParseCk(text) == None
    ensures |CkLines(text)| > 2 ==>
      var ck := CkFold(CkLines(text));
      ParseCk(text) == if ck.openid == "" || ck.token == "" || ck.platform == "" then None else Some(ck)
  {
  }

  lemma CkFoldSnoc(lines: seq<string>, i: nat)
    requires i < |lines|
    ensures var ck := CkFold(lines[..i]);
            var line := lines[i];
            CkFold(lines[..i + 1])
            == if StartsWith(line, "openid:") then ck.(openid := Strip(RemoveAll(line, "openid:")))
               else if StartsWith(line, "token:") then ck.(token := Strip(RemoveAll(line, "token:")))
               else if StartsWith(line, "platform:") then ck.(platform := Strip(RemoveAll(line, "platform:")))
               else ck
  {
    assert lines[..i + 1][..i] == lines[..i];
  }

  /** A later line for a field overrides an earlier one: each field holds the
      value of the last line that sets it. */
  lemma {:induction false} CkFoldLast(lines: seq<string>, f: Field, j: nat)
    requires j < |lines| && FieldOf(lines[j]) == Some(f)
    requires forall k :: j < k < |lines| ==> FieldOf(lines[k]) != Some(f)
    ensures Get(CkFold(lines), f) == FieldValue(lines[j], f)
    decreases |lines|
  {
    var init := lines[..|lines| - 1];
    if j < |lines| - 1 {
      assert forall k :: j < k < |init| ==> init[k] == lines[k];
      CkFoldLast(init, f, j);
    } else {
      assert lines[|lines| - 1] == lines[j];
    }
  }

  /** A field no line sets stays empty. */
  lemma {:induction false} CkFoldUnset(lines: seq<string>, f: Field)
    requires forall k :: 0 <= k < |lines| ==> FieldOf(lines[k]) != Some(f)
    ensures Get(CkFold(lines), f) == ""
    decreases |lines|
  {
    if lines != [] {
      var init := lines[..|lines| - 1];
      assert forall k :: 0 <= k < |init| ==> init[k] == lines[k];
      CkFoldUnset(init, f);
    }
  }

  // ---------------------------------------------------------------------------
  // out_l
  // ---------------------------------------------------------------------------

  /** `out_login`'s dict, in insertion order. */
  function ExportPairs(row: UserRow): seq<(string, string)> {
    [("openid", row.uid), ("token", row.cookie), ("platform", row.platform)]
  }

  /** The message the `for k, v in login_info.items()` loop builds. */
  function ExportText(pairs: seq<(string, string)>): string {
    if pairs == [] then ""
    else ExportText(pairs[..|pairs| - 1]) + pairs[|pairs| - 1].0 + ": " + pairs[|pairs| - 1].1 + "\n"
  }

  const PrivateOnlyText: string := "[DF] 请在私聊中使用该命令!"
  const NotLoggedInText: string := "[DF] 导出失败! 请先登录!"

  /** `out_l(bot, ev)`: what it does, given the user table. */
  function OutLEffects(users: map<(string, string), UserRow>, ev: Event): seq<Effect> {
    if ev.groupId.Some? then [Send(Text(PrivateOnlyText), false)]
    else if (ev.userId, ev.botId) !in users then [Send(Text(NotLoggedInText), false)]
    else [Send(Text(ExportText(ExportPairs(users[(ev.userId, ev.botId)]))), false)]
  }

  /** `out_login(bot, ev)`: the stored row, or a message. */
  method OutLogin(s: LoginSession, ev: Event) returns (info: Option<seq<(string, string)>>)
    modifies s
    ensures info == if (ev.userId, ev.botId) in s.users then Some(ExportPairs(s.users[(ev.userId, ev.botId)])) else None
    ensures s.log == old(s.log) + (if info.None? then [Send(Text(NotLoggedInText), false)] else [])
    ensures s.users == old(s.users) && s.binds == old(s.binds)
  {
    if (ev.userId, ev.botId) !in s.users {
      s.log := s.log + [Effect.Send(Text(NotLoggedInText), false)];
      return None;
    }
    var row := s.users[(ev.userId, ev.botId)];
    return Some([("openid", row.uid), ("token", row.cookie), ("platform", row.platform)]);
  }

  /** `out_l(bot, ev)` */
  method OutL(s: LoginSession, ev: Event)
    modifies s
    ensures s.log == old(s.log) + OutLEffects(old(s.users), ev)
    ensures s.users == old(s.users) && s.binds == old(s.binds)
  {
    if ev.groupId.Some? {
      s.log := s.log + [Effect.Send(Text(PrivateOnlyText), false)];
      return;
    }
    var loginInfo := OutLogin(s, ev);
    if loginInfo.None? {
      return;
    }
    var items := loginInfo.value;
    var msg := "";
    for i := 0 to |items|
      invariant msg == ExportText(items[..i])
    {
      assert items[..i + 1][..i] == items[..i];
      msg := msg + items[i].0 + ": " + items[i].1 + "\n";
    }
    assert items[..|items|] == items;
    s.log := s.log + [Effect.Send(Text(msg), false)];
  }

  /** A value `out_l` can hand back to `add_ck` unchanged: non-empty, with no
      space at either end, no line break, and not containing its own prefix. */
  predicate Exportable(v: string, f: Field) {
    v != "" && IsStripped(v) && '\n' !in v && !Contains(v, FieldPrefix(f))
  }

  /** `(prefix + " " + v).replace(prefix, "").strip() == v` */
  lemma PrefixedValue(f: Field, v: string)
    requires Exportable(v, f)
    ensures FieldValue(FieldPrefix(f) + " " + v, f) == v
  {
    var p := FieldPrefix(f);
    var line := p + " " + v;
    assert line[..|p|] == p;
    assert line[|p|..] == " " + v;
    assert !StartsWith(" " + v, p) by {
      assert (" " + v)[0] == ' ' && p[0] != ' ';
    }
    assert (" " + v)[1..] == v;
    RemoveAbsent(" " + v, p);
    assert RemoveAll(line, p) == " " + v;
    assert LStrip(" " + v) == LStrip(v);
    StripOfStripped(v);
  }

  /** The three lines `out_l` exports for `row`, without their line breaks. */
  function ExportLines(row: UserRow): seq<string> {
    ["openid: " + row.uid, "token: " + row.cookie, "platform: " + row.platform]
  }

  lemma ExportTextIsJoin(row: UserRow)
    ensures var ls := ExportLines(row);
            Join(ls, "\n") == ls[0] + "\n" + ls[1] + "\n" + ls[2]
    ensures ExportText(ExportPairs(row)) == Join(ExportLines(row), "\n") + "\n"
  {
    var pairs := ExportPairs(row);
    var ls := ExportLines(row);
    assert pairs[..1][..0] == [];
    assert ExportText(pairs[..1]) == ls[0] + "\n";
    assert pairs[..2][..1] == pairs[..1];
    assert ExportText(pairs[..2]) == ls[0] + "\n" + ls[1] + "\n";
    assert pairs[..|pairs| - 1] == pairs[..2];
    assert ls[1..][1..] == [ls[2]];
    assert Join(ls[1..], "\n") == ls[1] + "\n" + ls[2];
  }

  /** `(s + "\n").strip() == s` for a stripped, non-empty `s`. */
  lemma StripTrailingBreak(s: string)
    requires s != [] && IsStripped(s)
    ensures Strip(s + "\n") == s
  {
    assert (s + "\n")[..|s|] == s;
    assert LStrip(s + "\n") == s + "\n";
    StripOfStripped(s);
  }

  lemma ExportedLinesSplit(row: UserRow)
    requires Exportable(row.uid, OpenIdField)
    requires Exportable(row.cookie, TokenField)
    requires Exportable(row.platform, PlatformField)
    ensures CkLines(ExportText(ExportPairs(row))) == ExportLines(row)
  {
    var ls := ExportLines(row);
    var joined := Join(ls, "\n");
    ExportTextIsJoin(row);
    assert joined[0] == ls[0][0] == 'o';
    assert joined[|joined| - 1] == row.platform[|row.platform| - 1];
    StripTrailingBreak(joined);
    assert forall i :: 0 <= i < |ls| ==> '\n' !in ls[i];
    SplitJoin(ls, '\n');
  }

  lemma ExportedLinesFold(row: UserRow)
    requires Exportable(row.uid, OpenIdField)
    requires Exportable(row.cookie, TokenField)
    requires Exportable(row.platform, PlatformField)
    ensures CkFold(ExportLines(row)) == Ck(row.uid, row.cookie, row.platform)
  {
    var ls := ExportLines(row);
    var l1, l2, l3 := ls[0], ls[1], ls[2];
    assert l1 == FieldPrefix(OpenIdField) + " " + row.uid;
    assert l2 == FieldPrefix(TokenField) + " " + row.cookie;
    assert l3 == FieldPrefix(PlatformField) + " " + row.platform;
    assert FieldOf(l1) == Some(OpenIdField) by {
      assert l1[..7] == "openid:";
    }
    assert FieldOf(l2) == Some(TokenField) by {
      assert l2[0] == 't';
      assert l2[..6] == "token:";
    }
    assert FieldOf(l3) == Some(PlatformField) by {
      assert l3[0] == 'p';
      assert l3[..9] == "platform:";
    }
    PrefixedValue(OpenIdField, row.uid);
    PrefixedValue(TokenField, row.cookie);
    PrefixedValue(PlatformField, row.platform);
    var c1 := Ck(row.uid, "", "");
    var c2 := Ck(row.uid, row.cookie, "");
    assert CkFold(ls[..1]) == c1 by {
      assert ls[..1][..0] == [];
    }
    assert CkFold(ls[..2]) == c2 by {
      assert ls[..2][..1] == ls[..1];
    }
    assert ls[..|ls| - 1] == ls[..2];
  }

  /** The text `out_l` exports, pasted back into `add_ck`, stores the same row. */
  lemma ExportThenAddCk(row: UserRow)
    requires Exportable(row.uid, OpenIdField)
    requires Exportable(row.cookie, TokenField)
    requires Exportable(row.platform, PlatformField)
    ensures ParseCk(ExportText(ExportPairs(row))).Some?
    ensures CkRow(ParseCk(ExportText(ExportPairs(row))).value) == row
  {
    ExportedLinesSplit(row);
    ExportedLinesFold(row);
    ParseCkCases(ExportText(ExportPairs(row)));
  }
}
