# DeltaUID / RatGrinder core, modelled in Dafny

This project models the core of a chat-bot plugin for the game *Delta Force* (DeltaUID) and two helpers of the RatGrinder game plugin.

- **QR-code login** (`Delta_login/login.py`). The flow runs on a `LoginSession` object:
  - a log of effects, in order: messages sent, sleeps, backend calls and store writes;
  - the `DFUser` table;
  - the `DFBind` table.

  The backend is a script of answers fixed in advance. The n-th status poll is a function of n. The flow is specified by functions of that script: what it returns, which effects it logs, and how the tables change. Around these functions sit lemmas about:
  - the 120-attempt polling loop;
  - the outcomes;
  - the store writes.
- **The chat commands** (`Delta_login/__init__.py`):
  - the 登录 / 绑定 / 切换 / 删除 dispatch;
  - `add_ck`, which reads a credential block pasted as text;
  - `out_l`, which exports the stored credentials;
  - `get_response_message`.

  The proved properties include:
  - a round trip: whatever `out_l` exports, `add_ck` reads back as the same row;
  - every reply code can be read back from its message.
- **Util** (`utils/api/utils.py`):
  - the gtk and QR-token hashes, with the 31-bit mask written out;
  - number and duration formatting;
  - the two rank tables;
  - the Sunday offset;
  - API-response parsing;
  - cookie and parameter building;
  - the name tables.
- **Record queries** (`Delta_user/msg_info.py`):
  - the argument parser of `get_record`;
  - the extraction-mode and battlefield listings, including the per-record detail requests;
  - `get_tqc`, the special-office device status.

  The `MsgInfo` object keeps the log of requests it sends.
- **RatGrinder**:
  - the `DabaMap` grid of `MapCell` objects (`ratgrinder_fight/utils.py`), with classes and an in-place `set_cell`;
  - `bag_into_msg` (`ratgrinder_item/bag.py`).

The Python string operations the code relies on are modelled once, in module `Text`:
- `strip`;
- `split()` and `split("\n")`;
- `join`;
- `replace(p, "")`;
- `lower` on ASCII;
- `str(int)` and `int(str)`.

Files:
- `text.dfy`
- `util.dfy`
- `login.dfy`
- `login_commands.dfy`
- `msg_info.dfy`
- `daba_map.dfy`
- `bag.dfy`

## Model

| member | source | states |
|---|---|---|
| Text.LStrip | DeltaUID/Delta_login/__init__.py:110 | the result is no longer than the input and does not start with whitespace |
| Text.IsSpace | DeltaUID/Delta_login/__init__.py:110 | definition: Python's `str.isspace()` for one character, the whitespace that `strip()` and `split()` remove (tab to carriage return, the separators U+001C-U+001F, space, U+0085, U+00A0 and the Unicode spaces) |
| Text.LStripDrops | DeltaUID/Delta_login/__init__.py:110 | `lstrip` removes exactly a prefix, and every character of that prefix is whitespace |
| Text.RStrip | DeltaUID/Delta_login/__init__.py:110 | the result is a prefix of the input and does not end in whitespace |
| Text.RStripDrops | DeltaUID/Delta_login/__init__.py:110 | every character `rstrip` removes is whitespace |
| Text.StripOfStripped | DeltaUID/Delta_login/__init__.py:118 | `strip` leaves a text alone when it has no whitespace at either end |
| Text.StartsWith | DeltaUID/Delta_login/__init__.py:117-121 | definition: `s.startswith(p)`: `s` begins with the whole of `p` |
| Text.Contains | DeltaUID/Delta_login/__init__.py:43 | definition: `sub in s`: `sub` occurs somewhere in `s` as a contiguous run |
| Text.Strip | DeltaUID/Delta_login/__init__.py:110 | definition: `strip()` as `lstrip()` followed by `rstrip()`, so both ends lose their whitespace |
| Text.SplitOn | DeltaUID/Delta_login/__init__.py:111 | `split(sep)` always yields at least one part |
| Text.SplitJoin | DeltaUID/Delta_login/__init__.py:111 | splitting a join of separator-free parts gives the parts back |
| Text.SplitNoSep | DeltaUID/Delta_login/__init__.py:111 | a text without the separator splits into itself alone |
| Text.JoinSplit | DeltaUID/Delta_login/__init__.py:111 | joining the parts of a split rebuilds the text |
| Text.Join | DeltaUID/Delta_user/msg_info.py:464-467 | definition: `sep.join(parts)`: the parts in order with `sep` between neighbours, the empty text for no parts |
| Text.JoinSnoc | DeltaUID/Delta_user/msg_info.py:464-467 | joining one more part appends the separator and that part |
| Text.ConcatSnoc | DeltaUID/Delta_user/msg_info.py:307 | concatenating one more part appends it |
| Text.Concat | DeltaUID/Delta_user/msg_info.py:307 | definition: the texts appended one after another, as repeated `msgs +=` builds them |
| Text.TakeWord | DeltaUID/Delta_user/msg_info.py:172 | the first word is a whitespace-free prefix that ends at whitespace or at the end, and is non-empty when the text starts with a non-blank |
| Text.Words | DeltaUID/Delta_user/msg_info.py:172 | definition: `split()` with no argument: leading whitespace skipped, then the maximal whitespace-free word, then the rest split the same way |
| Text.WordsAreWords | DeltaUID/Delta_user/msg_info.py:172 | every token of `split()` is non-empty and free of whitespace |
| Text.WordsOfEmpty | DeltaUID/Delta_user/msg_info.py:171-172 | the empty text has no tokens |
| Text.WordsJoin | DeltaUID/Delta_user/msg_info.py:172 | `split()` of whitespace-free words joined by spaces gives the words back |
| Text.WordsSingle | DeltaUID/Delta_user/msg_info.py:172 | a single word splits into itself |
| Text.WordsJoinCons | DeltaUID/Delta_user/msg_info.py:172 | one more word in front of a join that splits back also splits back |
| Text.WordsCons | DeltaUID/Delta_user/msg_info.py:172 | a word followed by whitespace or the end is the first token |
| Text.WordsAfterSpace | DeltaUID/Delta_user/msg_info.py:172 | a leading space adds no token |
| Text.LStripIdempotent | DeltaUID/Delta_login/__init__.py:110 | `lstrip` leaves a text alone when it starts with a non-blank |
| Text.TakeWordOf | DeltaUID/Delta_user/msg_info.py:172 | the first word of a word followed by whitespace is that word |
| Text.LStripRest | DeltaUID/Delta_user/msg_info.py:172 | stripping the space in front of a join of words gives the join |
| Text.RemoveAll | DeltaUID/Delta_login/__init__.py:118 | `replace(p, "")` never lengthens the text |
| Text.RemoveAbsent | DeltaUID/Delta_login/__init__.py:118 | `replace(p, "")` leaves a text without `p` unchanged |
| Text.Lower | DeltaUID/Delta_login/login.py:212 | ASCII lower-casing: the length is kept and each ASCII capital is lowered on its own, other characters are kept (see Left out) |
| Text.LowerChar | DeltaUID/Delta_login/login.py:212 | definition: one character of `lower()`: an ASCII capital becomes its small letter, any other character stays (as under Left out) |
| Text.NatToString | DeltaUID/utils/api/utils.py:107 | `str(n)` of a natural number is a non-empty run of digits |
| Text.IntToString | DeltaUID/utils/api/utils.py:107 | `str(i)` is never empty |
| Text.NatToStringRoundTrip | DeltaUID/Delta_user/msg_info.py:209-212 | the digits of `str(n)` read back as `n` |
| Text.ParseSigned | DeltaUID/Delta_user/msg_info.py:209-212 | `int()` accepts no empty text |
| Text.IntToStringRoundTrip | DeltaUID/Delta_user/msg_info.py:209-212 | `int(str(i)) == i` for every integer |
| Text.NegativeParse | DeltaUID/Delta_user/msg_info.py:209-212 | `int("-" + digits)` is the negated value of the digits |
| Text.DigitsAreStripped | DeltaUID/Delta_user/msg_info.py:209 | a run of digits has no whitespace to strip |
| Text.IsDigits | DeltaUID/Delta_user/msg_info.py:184 | definition: `isdigit()` on ASCII digits: a non-empty text of digits only (Unicode digits as under Left out) |
| Text.IsDigit | DeltaUID/Delta_user/msg_info.py:184 | definition: one ASCII digit '0' to '9' |
| Text.DigitsValue | DeltaUID/Delta_user/msg_info.py:187 | definition: the decimal value `int()` gives a digit string, read left to right |
| Text.ParseInt | DeltaUID/Delta_user/msg_info.py:211 | `int(token)`: the stripped text read by `ParseSigned`, `None` exactly where `ValueError` is raised |
| Text.IntToStringInjective | DeltaUID/Delta_login/__init__.py:25 | different integers print differently |
| DeltaUtil.And31 | DeltaUID/utils/api/utils.py:55 | `& 0x7FFFFFFF` lands in [0, 2^31) and leaves values already in range unchanged |
| DeltaUtil.AndNat | DeltaUID/utils/api/utils.py:55 | definition: the bitwise AND of two naturals, bit by bit from the lowest |
| DeltaUtil.And31IsBitwiseAnd | DeltaUID/utils/api/utils.py:55 | the model of the mask agrees with a bitwise AND on naturals |
| DeltaUtil.And31IsMod | DeltaUID/utils/api/utils.py:129 | the mask is reduction modulo 2^31, negative values included |
| DeltaUtil.AndLowMask | DeltaUID/utils/api/utils.py:55 | the AND of any natural with 2^k - 1 is that natural mod 2^k |
| DeltaUtil.Pow2Of31 | DeltaUID/utils/api/utils.py:129 | 2^31 is 2147483648, one more than the literal mask |
| DeltaUtil.GtkFold | DeltaUID/utils/api/utils.py:51-55 | definition: the accumulator `hash += (hash << 5) + ord(c)` over the characters of the key, from the seed, on unbounded integers |
| DeltaUtil.GtkStep | DeltaUID/utils/api/utils.py:54 | definition: one step `h += (h << 5) + ord(c)`, with `h << 5` as `h * 32` on unbounded integers |
| DeltaUtil.GetGtk | DeltaUID/utils/api/utils.py:51-55 | the loop's result is the mask of the unbounded fold `h += (h << 5) + ord(c)` from the seed, and lies in [0, 2^31) |
| DeltaUtil.GtkOfEmpty | DeltaUID/utils/api/utils.py:51-55 | the empty key gives the default seed 5381 |
| DeltaUtil.QrFold | DeltaUID/utils/api/utils.py:119-126 | definition: the accumulator of `get_qr_token`, masked to 31 bits at each step as the loop masks it |
| DeltaUtil.QrStep | DeltaUID/utils/api/utils.py:124-126 | definition: one masked step `(((h << 5) & M) + ord(c)) & M` added to `h`, then `h & M`, with `+` binding tighter than `&` as in Python |
| DeltaUtil.GetQrToken | DeltaUID/utils/api/utils.py:114-129 | the loop masks after every step, lies in [0, 2^31), and is 0 for an empty qrsig |
| DeltaUtil.ModSum | DeltaUID/utils/api/utils.py:114-129 | reducing one addend first does not change a sum mod m |
| DeltaUtil.ModScale | DeltaUID/utils/api/utils.py:114-129 | reducing a factor first does not change a product mod m |
| DeltaUtil.QrStepIsGtkStep | DeltaUID/utils/api/utils.py:119-126 | one masked QR-token step equals the masked gtk step |
| DeltaUtil.QrTokenIsGtkFromZero | DeltaUID/utils/api/utils.py:114-129 | the QR token is the gtk hash started from 0 instead of 5381 |
| DeltaUtil.TransNum | DeltaUID/utils/api/utils.py:106-111 | definition: `str(n)` below 1000; below a million, thousands to one decimal with "K"; otherwise millions to one decimal with "M" (rounding as under Left out) |
| DeltaUtil.TenthsOf | DeltaUID/utils/api/utils.py:109-111 | definition: `num / unit` to one decimal, as a whole number of tenths rounded half up (rounding as under Left out) |
| DeltaUtil.ShowTenths | DeltaUID/utils/api/utils.py:109-111 | definition: the `.1f` text of a count of tenths: the integer part, a point and the tenths digit |
| DeltaUtil.TransNumText | DeltaUID/utils/api/utils.py:103-111 | a text number is formatted exactly when `int()` accepts it, and then as that integer |
| DeltaUtil.TransNumBands | DeltaUID/utils/api/utils.py:103-111 | below 1000 the number prints as itself and reads back; up to a million it ends in K; from there on it ends in M |
| DeltaUtil.TransNumIsNearestTenth | DeltaUID/utils/api/utils.py:108-111 | the K/M text shows the tenth of a thousand (resp. million) nearest to the number |
| DeltaUtil.TransNumExact | DeltaUID/utils/api/utils.py:108-111 | an exact multiple of a hundred (resp. a hundred thousand) prints its exact one-decimal value |
| DeltaUtil.TransNumExamples | DeltaUID/utils/api/utils.py:103-111 | 999, 1500 and 2300000 print as "999", "1.5K" and "2.3M" |
| DeltaUtil.SecondsToDuration | DeltaUID/utils/api/utils.py:201-217 | definition: 已完成 when no time is left; otherwise hours with minutes, or minutes with seconds, a zero minute part left out |
| DeltaUtil.SecondsToDurationText | DeltaUID/utils/api/utils.py:190-199 | a text argument is formatted exactly when `int()` accepts it |
| DeltaUtil.DurationParts | DeltaUID/utils/api/utils.py:203-217 | a positive duration splits into hours, minutes below 60 and seconds below 60; the text shows the non-zero hours and minutes, and the seconds only under an hour |
| DeltaUtil.DurationNonPositive | DeltaUID/utils/api/utils.py:201-202 | zero or negative seconds read "已完成" |
| DeltaUtil.FirstTierAbove | DeltaUID/utils/api/utils.py:292-306 | the tier found is the first whose end lies above the score; none is found only when the score reaches every end |
| DeltaUtil.RankOf | DeltaUID/utils/api/utils.py:278-311 | definition: unranked up to 1000 points, the first tier whose end lies above the score, otherwise the peak label with its stars above 6000 |
| DeltaUtil.RankText | DeltaUID/utils/api/utils.py:280-311 | definition: the three rank texts: 无段位, the tier name with sub-rank `★` stars, and the peak label `⭐` stars |
| DeltaUtil.RankIn | DeltaUID/utils/api/utils.py:299-305 | definition: inside the tier the loop stops at: the sub-rank counted down from the top and clamped at 1, and one star per 50 points within it |
| DeltaUtil.TierEnd | DeltaUID/utils/api/utils.py:299 | definition: `max_score = start_score + sub_ranks * interval` |
| DeltaUtil.RankByScore | DeltaUID/utils/api/utils.py:278-311 | the loop over the tier table returns the text of the rank the table assigns |
| DeltaUtil.GetRankByScoreSol | DeltaUID/utils/api/utils.py:278-311 | the extraction-mode rank uses the 青铜…黑鹰 table with the 三角洲巅峰 peak |
| DeltaUtil.GetRankByScoreTdm | DeltaUID/utils/api/utils.py:314-347 | the battlefield rank uses the 列兵…将军 table with the 统帅 peak |
| DeltaUtil.SolTiersContiguous | DeltaUID/utils/api/utils.py:283-290 | the extraction tiers run without gaps from 1000 to 6000, with 50 points per star |
| DeltaUtil.TdmTiersContiguous | DeltaUID/utils/api/utils.py:319-326 | the battlefield tiers run without gaps from 1000 to 6000, with 50 points per star |
| DeltaUtil.TierEndsIncrease | DeltaUID/utils/api/utils.py:292-306 | in a contiguous table a later tier never ends earlier |
| DeltaUtil.RankBands | DeltaUID/utils/api/utils.py:278-311 | up to 1000 is unranked; from 6000 the peak has (score-6000)/50 stars; in between the rank lies in the tier that contains the score, with a sub-rank and star count in range and within 50 points of the score |
| DeltaUtil.RankInBounds | DeltaUID/utils/api/utils.py:296-305 | inside one tier, the sub-rank and stars stay in range and locate the score to within 50 points |
| DeltaUtil.DaysToLastSunday | DeltaUID/utils/api/utils.py:241-244 | definition: the number of days back to the Sunday of the chosen week |
| DeltaUtil.SundayOffset | DeltaUID/utils/api/utils.py:241-244 | the offset lands on a Sunday in the requested week back, and is the only such day in that week |
| DeltaUtil.Display | DeltaUID/utils/api/utils.py:85 | definition: `str(v)` of a scalar value; a dict or list is shown by a placeholder (see Left out) |
| DeltaUtil.ParseApiResponse | DeltaUID/utils/api/utils.py:73-87 | success exactly when the success key is 0 (or False) and the payload is a dict; otherwise the failure quotes the code; an exception exactly when `.get("data", {})` meets a non-dict |
| DeltaUtil.Get | DeltaUID/utils/api/utils.py:75 | definition: `d.get(k, default)`: the value under the key, or the default |
| DeltaUtil.EqualsZero | DeltaUID/utils/api/utils.py:76 | definition: Python's `ret == 0` on a JSON value: true for the integer 0 and for `False`, false for every other value |
| DeltaUtil.ParseMissingKeyFails | DeltaUID/utils/api/utils.py:75 | a missing success key counts as code -1 |
| DeltaUtil.BuildGameParams | DeltaUID/utils/api/utils.py:90-100 | the three fixed keys, `method` only when given, and the extras, which override the fixed keys |
| DeltaUtil.CreateCookie | DeltaUID/utils/api/utils.py:63-70 | the four cookie keys, with `acctype` "qc" for QQ and "wx" otherwise |
| DeltaUtil.CookieCredentials | DeltaUID/utils/api/utils.py:63-70 | definition: reads the openid, the access token and the platform back out of a cookie |
| DeltaUtil.CookieRoundTrip | DeltaUID/utils/api/utils.py:63-70 | a cookie gives back the openid, the access token and the platform it was made from |
| DeltaUtil.CookieInjective | DeltaUID/utils/api/utils.py:63-70 | two cookies are equal exactly when the openids, the tokens and the platforms agree |
| DeltaUtil.MapName | DeltaUID/utils/api/utils.py:132-171 | a known id gives its table name; any other gives "未知地图" followed by the id |
| DeltaUtil.KeyText | DeltaUID/utils/api/utils.py:133-134 | definition: an integer id turned into its decimal text, a text id left as it is |
| DeltaUtil.MapNamesNotUnknown | DeltaUID/utils/api/utils.py:135-170 | no name in the table starts with the first character of the "未知地图" fallback |
| DeltaUtil.MapNameKnown | DeltaUID/utils/api/utils.py:132-171 | the name is one of the table's names exactly when the id is in the table |
| DeltaUtil.MapNameOfUnknown | DeltaUID/utils/api/utils.py:171 | the name of an unknown id equals another id's name exactly when both ids have the same text, so the fallback gives the id back |
| DeltaUtil.MapNameOfText | DeltaUID/utils/api/utils.py:133-134 | an integer id names the same map as its decimal text |
| DeltaUtil.ArmedForceName | DeltaUID/utils/api/utils.py:250-268 | a name exactly when `int()` accepts the id: the table name, or "未知干员" |
| DeltaUtil.AsInt | DeltaUID/utils/api/utils.py:251-252 | definition: `int(x)` of a number-or-text id: the integer itself, or the text read by `ParseInt`, `None` where `int()` raises |
| DeltaUtil.TdmMatchResult | DeltaUID/utils/api/utils.py:271-275 | a result exactly when `int()` accepts it; 1, 2 and 3 are named, and any other code is quoted |
| DeltaUtil.AsIntOfText | DeltaUID/utils/api/utils.py:251-252 | a printed integer converts back to that integer |
| DeltaUtil.ArmedForceNameOfText | DeltaUID/utils/api/utils.py:250-268 | an operator id given as text names the same operator as the integer |
| DeltaUtil.TdmMatchResultOfText | DeltaUID/utils/api/utils.py:271-275 | a match result given as text reads like the integer |
| DeltaUtil.TdmMatchResultByInt | DeltaUID/utils/api/utils.py:271-275 | the result depends only on the integer the argument converts to |
| DeltaLogin.LoginSession.constructor | DeltaUID/Delta_login/login.py:21-84 | a session starts with an empty log and empty user and bind tables |
| DeltaLogin.ProcessResult | DeltaUID/Delta_login/login.py:21-84 | definition: the user data that is stored when the token, the bind and the player query all succeed |
| DeltaLogin.ProcessEffects | DeltaUID/Delta_login/login.py:21-84 | definition: the bind and player calls, the two store writes and the one message of `_process_login_result`, cut at the first failing step |
| DeltaLogin.FailText | DeltaUID/Delta_login/login.py:26-27 | definition: `res.get('message', '未知错误')`: the answer's message, or 未知错误 when it has none |
| DeltaLogin.GroupOf | DeltaUID/Delta_login/login.py:33 | definition: `ev.group_id if ev.group_id else 0`: group 0 for a missing or empty group, otherwise the event's group |
| DeltaLogin.SuccessText | DeltaUID/Delta_login/login.py:76-81 | definition: the success message: the character name, the money in `trans_num_easy_for_read` units, and the 60-day validity note |
| DeltaLogin.UserRowOf | DeltaUID/utils/database/models.py:32-39 | definition: the `DFUser` row that `insert_user` writes: the openid as uid, the platform, and the access token as cookie |
| DeltaLogin.BindRowOf | DeltaUID/utils/database/models.py:18-24 | definition: the `DFBind` row that `insert_user` writes: the openid as uid, and the group |
| DeltaLogin.UsersAfter | DeltaUID/Delta_login/login.py:72 | definition: the user table after a login: the (user, bot) row replaced by the new user's row when user data is returned, unchanged otherwise (the corrected call of the first Findings row) |
| DeltaLogin.BindsAfter | DeltaUID/Delta_login/login.py:73 | definition: the bind table after a login: the (user, bot) row replaced by the new bind row when user data is returned, unchanged otherwise (the corrected call of the first Findings row) |
| DeltaLogin.LoginSession.ProcessLoginResult | DeltaUID/Delta_login/login.py:21-84 | returns, logs and stores what `ProcessResult` / `ProcessEffects` prescribe |
| DeltaLogin.LoginSession.LoginWithQq | DeltaUID/Delta_login/login.py:87-141 | returns and logs what the QQ flow prescribes; the tables change only when it returns a user |
| DeltaLogin.SigMessageText | DeltaUID/Delta_login/login.py:93-97 | definition: the `get_sig` failure message as text: a string message verbatim, a dict message as "{...}" (as under Left out) |
| DeltaLogin.QqResult | DeltaUID/Delta_login/login.py:87-141 | definition: nothing when `get_sig` fails or answers with a plain-string message, otherwise the polling loop's result from attempt 0 |
| DeltaLogin.SigFails | DeltaUID/Delta_login/login.py:93 | definition: `not res["status"] or isinstance(res["message"], str)` |
| DeltaLogin.QqEffects | DeltaUID/Delta_login/login.py:87-141 | definition: the `get_sig` call, then its failure text, or the QR prompt followed by the polling loop's effects from attempt 0 |
| DeltaLogin.LoginSession.PollQqOnce | DeltaUID/Delta_login/login.py:118-134 | one poll: a pending answer logs only the poll; any other answer ends the loop with the prescribed outcome |
| DeltaLogin.QqPollResult | DeltaUID/Delta_login/login.py:116-141 | definition: the QQ loop from a given attempt: code 0 processes the token, -4, -2, -3 and -1 stop with nothing, any other code polls again, and after 120 attempts nothing |
| DeltaLogin.QqPollEffects | DeltaUID/Delta_login/login.py:116-141 | definition: each status poll, then for code 0 the token exchange and `_process_login_result`; for -4, -2 or -3 the failure text; for -1 the timeout text; otherwise a sleep and the next poll; after 120 polls the timeout text |
| DeltaLogin.QqPollCall | DeltaUID/Delta_login/login.py:119 | definition: the status poll with the challenge's cookie, qrSig, token and loginSig |
| DeltaLogin.QqRejected | DeltaUID/Delta_login/login.py:125 | definition: codes -4, -2 and -3 reject the login |
| DeltaLogin.QqPending | DeltaUID/Delta_login/login.py:121-137 | definition: a code that is none of 0, -4, -2, -3 and -1 falls through every branch to the next attempt |
| DeltaLogin.LoginSession.PollQq | DeltaUID/Delta_login/login.py:116-141 | the polling loop does what the poll function prescribes from attempt 0 |
| DeltaLogin.LoginSession.LoginWithWechat | DeltaUID/Delta_login/login.py:144-201 | returns and logs what the WeChat flow prescribes |
| DeltaLogin.WxResult | DeltaUID/Delta_login/login.py:144-201 | definition: nothing when the QR request or the image fails, otherwise the polling loop's result from attempt 0 |
| DeltaLogin.WxEffects | DeltaUID/Delta_login/login.py:144-201 | definition: the QR request and its failure text; or the image fetch, then the image failure text or the QR prompt followed by the polling loop's effects |
| DeltaLogin.LoginSession.PollWechatOnce | DeltaUID/Delta_login/login.py:177-197 | one WeChat poll: pending logs only the poll; any other answer ends the loop |
| DeltaLogin.WxPollResult | DeltaUID/Delta_login/login.py:175-201 | definition: the WeChat loop from a given attempt: a true status with code 3 processes the token, a false status stops, and the 120th pending answer times out |
| DeltaLogin.WxPollEffects | DeltaUID/Delta_login/login.py:175-201 | definition: each status poll, then for a true status with code 3 the token exchange and `_process_login_result`; for a false status the failure text; on the 120th pending poll the timeout text; otherwise a sleep and the next poll |
| DeltaLogin.WxPending | DeltaUID/Delta_login/login.py:180-184 | definition: a true status with a code other than 3 falls through both branches to the next attempt |
| DeltaLogin.LoginSession.PollWechat | DeltaUID/Delta_login/login.py:175-201 | the WeChat polling loop does what its poll function prescribes from attempt 0 |
| DeltaLogin.SelectPlatform | DeltaUID/Delta_login/login.py:212-221 | definition: an empty text, or one that lower-cases to "qq", selects QQ; 微信 selects WeChat; anything else is refused |
| DeltaLogin.LoginInResult | DeltaUID/Delta_login/login.py:204-229 | definition: the result of the selected flow; nothing for a refused platform |
| DeltaLogin.LoginInEffects | DeltaUID/Delta_login/login.py:204-229 | definition: the QQ or the WeChat flow's effects for the platform selected, and the platform error text for any other platform |
| DeltaLogin.LoginSession.LoginIn | DeltaUID/Delta_login/login.py:204-229 | returns, logs and stores what `login_in` prescribes for the platform text |
| DeltaLogin.RepeatStep | DeltaUID/Delta_login/login.py:117-137 | one more pending round extends the repeated poll/sleep prefix |
| DeltaLogin.AppendAssoc | DeltaUID/Delta_login/login.py:117-137 | regrouping the appended parts of the log does not change it |
| DeltaLogin.QqPendingStep | DeltaUID/Delta_login/login.py:136-137 | a pending answer logs the poll and a sleep, then goes on with the next attempt, with the same result |
| DeltaLogin.QqPollsExhausted | DeltaUID/Delta_login/login.py:139-141 | after 120 attempts the flow sends the timeout text and returns nothing |
| DeltaLogin.WxPendingStep | DeltaUID/Delta_login/login.py:199 | a pending WeChat answer logs the poll and a sleep, then goes on with the next attempt, with the same result |
| DeltaLogin.WxLastPoll | DeltaUID/Delta_login/login.py:193-197 | a pending answer on the last attempt sends the timeout text without sleeping |
| DeltaLogin.CountAppend | DeltaUID/Delta_login/login.py:21-233 | effect counts add up over a concatenated log |
| DeltaLogin.CountAppendAll | DeltaUID/Delta_login/login.py:21-233 | the same, for every kind of effect at once |
| DeltaLogin.CountShort | DeltaUID/Delta_login/login.py:21-84 | in a log of at most five effects, a count is the sum over its positions |
| DeltaLogin.CountRepeat | DeltaUID/Delta_login/login.py:117-137 | n repetitions of a block hold n times its count |
| DeltaLogin.ProcessOutcome | DeltaUID/Delta_login/login.py:21-84 | the token result gives a user iff the token, the bind and the player query all succeed; exactly one message, no poll, no sleep; two store writes iff it succeeds: the user, then the bind row, of the user built from the token and the event, then the success message with the player's name and money |
| DeltaLogin.ProcessEffectsAsWritten | DeltaUID/Delta_login/login.py:72-73 | definition: `_process_login_result` as written: the bind and player calls, then the raise in `DFUser.insert_user` and the error text of the `login_in` handler |
| DeltaLogin.StoreCallsRaise | DeltaUID/Delta_login/login.py:72-73 | as written, a login whose three queries succeed writes no row and ends in "登录过程发生错误，请稍后重试"; the corrected flow writes both rows and ends in the success message |
| DeltaLogin.GroupOfCases | DeltaUID/Delta_login/login.py:33 | the stored group is 0 exactly when the event has no group or an empty one, and the event's group otherwise |
| DeltaLogin.QqPollOutcome | DeltaUID/Delta_login/login.py:117-141 | from any attempt, the QQ loop sends exactly one message, polls at most the attempts left, sleeps no more than it polls, and writes the store twice iff it returns a user |
| DeltaLogin.QqFoundOutcome | DeltaUID/Delta_login/login.py:121-134 | a non-pending answer settles the outcome at that attempt |
| DeltaLogin.QqStepOutcome | DeltaUID/Delta_login/login.py:136-137 | a pending answer passes the outcome of the next attempt back |
| DeltaLogin.QqPollPending | DeltaUID/Delta_login/login.py:117-137 | a run of pending answers from m to n logs n - m poll/sleep rounds and leaves the result unchanged |
| DeltaLogin.QqNeverScanned | DeltaUID/Delta_login/login.py:117-141 | 120 pending answers give 120 polls and 120 sleeps, then the timeout text and no user |
| DeltaLogin.NeverScannedCounts | DeltaUID/Delta_login/login.py:117-137 | n poll/sleep rounds then a reply hold n polls and n sleeps |
| DeltaLogin.QqScannedAt | DeltaUID/Delta_login/login.py:121-124 | a code 0 at attempt n after pending answers exchanges the cookie of that answer and processes its token |
| DeltaLogin.QqLoginOutcome | DeltaUID/Delta_login/login.py:87-141 | a failed challenge returns nothing, sends one message and polls nothing; otherwise two messages (prompt and outcome); two store writes iff a user is returned |
| DeltaLogin.WxPollOutcome | DeltaUID/Delta_login/login.py:176-201 | from any attempt, the WeChat loop sends exactly one message, sleeps fewer times than it polls, polls at most the attempts left, and writes the store twice iff it returns a user |
| DeltaLogin.WxFoundOutcome | DeltaUID/Delta_login/login.py:180-191 | a non-pending WeChat answer settles the outcome at that attempt |
| DeltaLogin.WxStepOutcome | DeltaUID/Delta_login/login.py:193-199 | a pending WeChat answer passes the outcome of the next attempt back |
| DeltaLogin.WxPollPending | DeltaUID/Delta_login/login.py:176-199 | a run of pending WeChat answers logs poll/sleep rounds and leaves the result unchanged |
| DeltaLogin.WxNeverScanned | DeltaUID/Delta_login/login.py:176-201 | never confirmed: 119 poll/sleep rounds, the 120th poll, then the timeout text and no user |
| DeltaLogin.WxScannedAt | DeltaUID/Delta_login/login.py:180-183 | a code 3 at attempt n exchanges that answer's code and processes its token |
| DeltaLogin.SelectPlatformCases | DeltaUID/Delta_login/login.py:212-221 | QQ exactly for an empty text or one that lowers to "qq"; WeChat exactly for "微信"; anything else is refused |
| DeltaLogin.LoginStoresIffSuccess | DeltaUID/Delta_login/login.py:204-233 | `login_in` writes the two tables exactly when it returns a user |
| DeltaLogin.WxLoginOutcome | DeltaUID/Delta_login/login.py:144-201 | a failed QR request or image download returns nothing, sends one message and polls nothing; otherwise two messages (prompt and outcome); two store writes iff a user is returned |
| DeltaLogin.BadPlatformRefused | DeltaUID/Delta_login/login.py:218-221 | a platform other than QQ or WeChat sends one message, returns nothing and starts no login |
| DeltaLoginCommands.ResponseMessage | DeltaUID/Delta_login/__init__.py:20-25 | definition: fixed texts for 0 and -1; any other code quoted after the failure prefix |
| DeltaLoginCommands.Tagged | DeltaUID/Delta_login/__init__.py:15 | definition: a text after `MSG_PREFIX` "[DF]" and a space, as every reply of these commands is written |
| DeltaLoginCommands.ResponseMessageRoundTrip | DeltaUID/Delta_login/__init__.py:20-25 | every return code can be read back from its message |
| DeltaLoginCommands.ResponseMessageInjective | DeltaUID/Delta_login/__init__.py:20-25 | two codes with the same message are equal |
| DeltaLoginCommands.DeleteTableIsResponseMessage | DeltaUID/Delta_login/__init__.py:94-101 | the 删除 reply table agrees with `get_response_message` on its codes |
| DeltaLoginCommands.RouteOf | DeltaUID/Delta_login/__init__.py:43-87 | definition: the branch of the first of 登录, 绑定, 切换 and 删除 that the command contains |
| DeltaLoginCommands.CommandEffects | DeltaUID/Delta_login/__init__.py:37-101 | definition: what each branch logs: `login_in` and its reply, `insert_uid`, the switch queries, or the delete queries |
| DeltaLoginCommands.BindTable | DeltaUID/Delta_login/__init__.py:56-61 | definition: the reply table of `insert_uid`'s codes 0, -1, -2 and -3, each text quoting the uid where the source does |
| DeltaLoginCommands.InsertUidEffects | DeltaUID/Delta_login/__init__.py:64-74 | definition: the `insert_uid` call, then the reply its code selects from `BindTable` |
| DeltaLoginCommands.SwitchEffects | DeltaUID/Delta_login/__init__.py:76-86 | definition: the switch call; for 0 the success text; for -3 the current-uid query, then the only-one-uid text when a uid is bound, else the none-bound text; for other codes 尚未绑定该UID |
| DeltaLoginCommands.DeleteEffects | DeltaUID/Delta_login/__init__.py:88-101 | definition: the current-uid query; for no uid the not-bound text; otherwise the delete call and the reply its code selects |
| DeltaLoginCommands.LoginReply | DeltaUID/Delta_login/__init__.py:46-62 | definition: after `login_in`, 登录失败，请检查输入 when it returns nothing, otherwise `insert_uid` of the returned openid with its reply |
| DeltaLoginCommands.CommandLogin | DeltaUID/Delta_login/__init__.py:43-44 | definition: the `login_in` result in the 登录 branch and nothing in the others, which is what decides whether the tables change |
| DeltaLoginCommands.Command | DeltaUID/Delta_login/__init__.py:37-101 | logs what the branch of the first keyword prescribes; only 登录 changes the tables, as `login_in` does |
| DeltaLoginCommands.LoginCommand | DeltaUID/Delta_login/__init__.py:43-62 | `login_in`, then a failure reply or the uid insert with its reply table |
| DeltaLoginCommands.BindCommand | DeltaUID/Delta_login/__init__.py:63-74 | the uid insert with its reply table; the tables unchanged |
| DeltaLoginCommands.SwitchCommand | DeltaUID/Delta_login/__init__.py:75-86 | the switch query and the reply its code selects, with the current-uid query on code -3 |
| DeltaLoginCommands.DeleteCommand | DeltaUID/Delta_login/__init__.py:87-101 | the current-uid query, then either the not-bound reply or the delete with its reply table |
| DeltaLoginCommands.RouteFirstMatch | DeltaUID/Delta_login/__init__.py:43-87 | each branch is taken exactly when its keyword is the first of 登录, 绑定, 切换, 删除 the command contains |
| DeltaLoginCommands.DeleteNeedsCurrentUid | DeltaUID/Delta_login/__init__.py:88-91 | without a current uid, 删除 never calls `delete_uid` and sends one message |
| DeltaLoginCommands.TableRepliesOnce | DeltaUID/Delta_login/__init__.py:63-101 | 绑定, 切换 and 删除 log exactly one reply effect, last, and write no row; a `DiffReply` counts as that effect even when its code is missing from its table |
| DeltaLoginCommands.LoginReplyOnce | DeltaUID/Delta_login/__init__.py:44-62 | after `login_in`, the 登录 branch logs exactly one reply effect, last |
| DeltaLoginCommands.CommandRepliesOnce | DeltaUID/Delta_login/__init__.py:37-101 | the non-login branches log one reply effect; 登录 adds one to those of the login; a command without a keyword does nothing |
| DeltaLoginCommands.Set | DeltaUID/Delta_login/__init__.py:117-122 | setting one field of the credentials leaves the other two alone |
| DeltaLoginCommands.CkFold | DeltaUID/Delta_login/__init__.py:115-122 | definition: the three fields after the loop over the lines, each set by a line that starts with its prefix |
| DeltaLoginCommands.CkStep | DeltaUID/Delta_login/__init__.py:117-122 | definition: one line sets the field of the first of `openid:`, `token:`, `platform:` it starts with, to the line with the prefix removed and stripped; any other line changes nothing |
| DeltaLoginCommands.FieldPrefix | DeltaUID/Delta_login/__init__.py:117-122 | definition: the prefixes openid:, token: and platform: of the three fields |
| DeltaLoginCommands.FieldOf | DeltaUID/Delta_login/__init__.py:117-122 | definition: the field of the first prefix a line starts with, tested in the order of the if-chain, or none |
| DeltaLoginCommands.FieldValue | DeltaUID/Delta_login/__init__.py:118 | definition: `i.replace(prefix, "").strip()`: every occurrence of the prefix removed, then stripped |
| DeltaLoginCommands.CkLines | DeltaUID/Delta_login/__init__.py:110-111 | definition: `text.strip().split("\n")` |
| DeltaLoginCommands.ParseCk | DeltaUID/Delta_login/__init__.py:108-124 | definition: nothing for two lines or fewer or for a field left empty, otherwise the credentials the loop read |
| DeltaLoginCommands.CkRow | DeltaUID/Delta_login/__init__.py:126-136 | definition: the `DFUser` row of a credential block: the openid as uid, the platform, and the token as cookie |
| DeltaLoginCommands.AddCkEffects | DeltaUID/Delta_login/__init__.py:108-137 | definition: the refusal text for a block `ParseCk` refuses; otherwise the row and 添加ck成功! (the corrected call of the second Findings row) |
| DeltaLoginCommands.UsersAfterCk | DeltaUID/Delta_login/__init__.py:136 | definition: the user table with the (user, bot) row replaced by the block's row, unchanged for a refused block (the corrected call) |
| DeltaLoginCommands.AddCkEffectsAsWritten | DeltaUID/Delta_login/__init__.py:136-137 | definition: `add_ck` as written: the refusal text, or nothing once `DFUser.insert_user` raises |
| DeltaLoginCommands.AddCkRaises | DeltaUID/Delta_login/__init__.py:136-137 | as written, a well-formed block writes no row and gets no reply; the corrected handler stores the row and confirms it |
| DeltaLoginCommands.AddCk | DeltaUID/Delta_login/__init__.py:108-137 | logs the error reply or the row write and the success reply; stores the parsed row under the user and bot; the bind table unchanged |
| DeltaLoginCommands.ParseCkCases | DeltaUID/Delta_login/__init__.py:111-124 | two lines or fewer are refused; otherwise the folded credentials are stored iff none of the three is empty |
| DeltaLoginCommands.CkFoldSnoc | DeltaUID/Delta_login/__init__.py:116-122 | one line updates the field of the first prefix it starts with, by its stripped, prefix-free value |
| DeltaLoginCommands.CkFoldLast | DeltaUID/Delta_login/__init__.py:116-122 | each field holds the value of the last line that sets it |
| DeltaLoginCommands.CkFoldUnset | DeltaUID/Delta_login/__init__.py:115-122 | a field no line sets stays empty |
| DeltaLoginCommands.OutLogin | DeltaUID/Delta_login/login.py:236-258 | the stored row as (openid, token, platform) pairs, or the not-logged-in message and nothing |
| DeltaLoginCommands.ExportPairs | DeltaUID/Delta_login/login.py:254-258 | definition: `out_login`'s dict in insertion order: openid, token and platform from the stored row |
| DeltaLoginCommands.ExportText | DeltaUID/Delta_login/__init__.py:162-164 | definition: one "k: v" line per pair, in order, each ended by a line break |
| DeltaLoginCommands.OutLEffects | DeltaUID/Delta_login/__init__.py:144-165 | definition: the refusal in a group, the not-logged-in text, or the export of the stored row |
| DeltaLoginCommands.OutL | DeltaUID/Delta_login/__init__.py:144-165 | a group chat is refused; otherwise the stored row is sent as one "key: value" line per entry |
| DeltaLoginCommands.PrefixedValue | DeltaUID/Delta_login/__init__.py:118-122 | a "prefix: value" line gives back the value, for a value with no outer spaces and no prefix inside |
| DeltaLoginCommands.ExportTextIsJoin | DeltaUID/Delta_login/__init__.py:162-164 | the export is the three lines joined by line breaks, plus a final one |
| DeltaLoginCommands.StripTrailingBreak | DeltaUID/Delta_login/__init__.py:110 | a trailing line break strips away |
| DeltaLoginCommands.ExportedLinesSplit | DeltaUID/Delta_login/__init__.py:110-111 | the exported text splits back into its three lines |
| DeltaLoginCommands.ExportedLinesFold | DeltaUID/Delta_login/__init__.py:115-122 | the three exported lines fold back into the exported credentials |
| DeltaLoginCommands.ExportThenAddCk | DeltaUID/Delta_login/__init__.py:108-165 | whatever `out_l` exports, `add_ck` accepts and stores as the same row |
| RecordQuery.SelectUser | DeltaUID/Delta_user/msg_info.py:21-22 | definition: the stored row of the user for this bot, if any |
| RecordQuery.MsgInfo.constructor | DeltaUID/Delta_user/msg_info.py:20-22 | the object holds the user's row for this bot, if any, and has sent no request; this follows the evidently intended awaited `select_data` (see Left out) |
| RecordQuery.RecordReply | DeltaUID/Delta_user/msg_info.py:159-401 | definition: the reply of `get_record`: the unbound prompt, the argument parser's refusal, a query failure, or the page of records |
| RecordQuery.RecordCalls | DeltaUID/Delta_user/msg_info.py:159-350 | definition: no request for an unbound user or refused arguments, otherwise the requests of the page |
| RecordQuery.PageReply | DeltaUID/Delta_user/msg_info.py:222-401 | definition: the player-info failure text, the record failure text, or the extraction (mode 4) or battlefield reply of the page |
| RecordQuery.PageCalls | DeltaUID/Delta_user/msg_info.py:222-350 | definition: the player query; when it succeeds, the record query and then the detail requests |
| RecordQuery.DetailCalls | DeltaUID/Delta_user/msg_info.py:317-350 | definition: no detail request for a failed record query or an extraction page, one per battlefield record otherwise |
| RecordQuery.MsgInfo.GetRecord | DeltaUID/Delta_user/msg_info.py:159-401 | the reply and the requests `get_record` prescribes: unbound prompt, argument error, failed queries, or the listing |
| RecordQuery.MsgInfo.FetchPage | DeltaUID/Delta_user/msg_info.py:222-401 | player query, record query, then the listing of the chosen mode |
| RecordQuery.MsgInfo.ListOperatorRecords | DeltaUID/Delta_user/msg_info.py:314-401 | the battlefield listing, with one detail request per record, in order |
| RecordQuery.MsgInfo.OperatorRecordEntry | DeltaUID/Delta_user/msg_info.py:318-400 | one battlefield entry: its detail request and its text |
| RecordQuery.TqcReply | DeltaUID/Delta_user/msg_info.py:403-474 | definition: the reply of `get_tqc`: the unbound prompt, the failure text (corrected as in Findings), or the device reply |
| RecordQuery.TqcCalls | DeltaUID/Delta_user/msg_info.py:403-410 | definition: no request for an unbound user, otherwise the one safehouse request |
| RecordQuery.MsgInfo.GetTqc | DeltaUID/Delta_user/msg_info.py:403-474 | the unbound prompt, the device lines or the no-data text, or on failure the corrected text of the Findings row rather than line 474 as written; one request when bound |
| RecordQuery.TokenStep | DeltaUID/Delta_user/msg_info.py:179-220 | definition: one token of the loop: a line-limit token, a mode word or a page number, with the refusal texts for a repeat, a bad value and an unknown word |
| RecordQuery.IsLimitToken | DeltaUID/Delta_user/msg_info.py:179 | definition: `token.startswith(('L', 'l'))` |
| RecordQuery.IsGunMode | DeltaUID/Delta_user/msg_info.py:195 | definition: the token is 烽火 or 烽火行动 |
| RecordQuery.IsBattleMode | DeltaUID/Delta_user/msg_info.py:201 | definition: the token is 战场, 大战场 or 全面战场 |
| RecordQuery.ScanTokens | DeltaUID/Delta_user/msg_info.py:177-220 | definition: the token loop; the first refusal stops it |
| RecordQuery.ParseArgs | DeltaUID/Delta_user/msg_info.py:167-220 | definition: an empty argument gives the defaults; otherwise the query the loop builds, or its refusal |
| RecordQuery.ScanTokensStep | DeltaUID/Delta_user/msg_info.py:177-220 | scanning the rest of the tokens is one step on the next token, then the scan of what follows |
| RecordQuery.ParseRecordArgs | DeltaUID/Delta_user/msg_info.py:167-220 | the loop over the tokens returns what the token scanner prescribes |
| RecordQuery.ScanKeepsValid | DeltaUID/Delta_user/msg_info.py:177-220 | a scan that goes on keeps mode 4 or 5, a positive page and a positive limit |
| RecordQuery.ParsedQueryValid | DeltaUID/Delta_user/msg_info.py:167-220 | accepted arguments always give mode 4 or 5, a page of at least 1 and a positive limit |
| RecordQuery.BlankArgsAreDefault | DeltaUID/Delta_user/msg_info.py:167-171 | blank arguments give mode 4, page 1 and limit 50 |
| RecordQuery.FirstRefusalWins | DeltaUID/Delta_user/msg_info.py:177-220 | the first refused token decides the answer, whatever follows |
| RecordQuery.ScanTokensAppend | DeltaUID/Delta_user/msg_info.py:177-220 | scanning two runs of tokens is scanning the second from where the first stopped |
| RecordQuery.TokenPrecedence | DeltaUID/Delta_user/msg_info.py:179-220 | the answer to one token, in the order the loop tests it: a second limit is "too many" even when malformed; a limit with non-digits is refused; a number is refused when not positive, "too many" when a page was seen, and otherwise sets the page; any other word gets the usage text |
| RecordQuery.TokenSetsOneField | DeltaUID/Delta_user/msg_info.py:179-220 | an accepted token sets only the field of its kind and marks it seen |
| RecordQuery.GunRecordText | DeltaUID/Delta_user/msg_info.py:250-291 | definition: the six-line text of one extraction record: index and time, map and operator, result and time alive, kills, extracted value, profit |
| RecordQuery.ArmedForceText | DeltaUID/Delta_user/msg_info.py:282-283 | definition: the operator name `get_armed_force_name` gives an integer id, its table name or 未知干员 |
| RecordQuery.DurationText | DeltaUID/Delta_user/msg_info.py:261-264 | definition: whole minutes and the remaining seconds of the time alive |
| RecordQuery.PriceText | DeltaUID/Delta_user/msg_info.py:268-279 | definition: 未知 for a missing value; a number or numeric text in readable units; other text as it is |
| RecordQuery.ProfitText | DeltaUID/Delta_user/msg_info.py:272-273 | definition: a minus sign for a loss, then the magnitude in readable units |
| RecordQuery.EscapeText | DeltaUID/Delta_user/msg_info.py:256-259 | "撤离成功" exactly for reason 1 |
| RecordQuery.EntriesAt | DeltaUID/Delta_user/msg_info.py:243-307 | entry i is the separator and the text of record i with index i + 1 |
| RecordQuery.Entries | DeltaUID/Delta_user/msg_info.py:243-307 | definition: one entry per shown record, `/n` followed by the record rendered with its number counted from 1 |
| RecordQuery.Listing | DeltaUID/Delta_user/msg_info.py:241-307 | definition: the header, then the entries concatenated |
| RecordQuery.EntriesLength | DeltaUID/Delta_user/msg_info.py:243-307 | n records give n entries |
| RecordQuery.EntriesPrefix | DeltaUID/Delta_user/msg_info.py:243-249 | fewer records give a prefix of the entries |
| RecordQuery.ExtendListing | DeltaUID/Delta_user/msg_info.py:307 | one more entry extends the listing by that entry |
| RecordQuery.ListingPrefix | DeltaUID/Delta_user/msg_info.py:243-249 | a shorter listing is a prefix of a longer one |
| RecordQuery.Shown | DeltaUID/Delta_user/msg_info.py:245-249 | the number of records shown is the limit, capped by the records available |
| RecordQuery.ListLimited | DeltaUID/Delta_user/msg_info.py:240-308 | the loop builds the listing of the records up to the limit |
| RecordQuery.ListGunRecords | DeltaUID/Delta_user/msg_info.py:236-308 | builds the extraction listing: "本页没有战绩" for an empty page, otherwise the header and the entries shown |
| RecordQuery.GunReply | DeltaUID/Delta_user/msg_info.py:236-308 | definition: 本页没有战绩 for an empty page, otherwise the extraction listing of the records the line limit lets through |
| RecordQuery.GunHeader | DeltaUID/Delta_user/msg_info.py:241 | definition: the character name, 烽火战绩 第, the page and 页 |
| RecordQuery.GunListingShape | DeltaUID/Delta_user/msg_info.py:240-308 | the extraction listing is the header followed by the entries up to the limit |
| RecordQuery.GunLimitMonotone | DeltaUID/Delta_user/msg_info.py:245-249 | a larger limit extends the listing of a smaller one |
| RecordQuery.ConcatSplit | DeltaUID/Delta_user/msg_info.py:307 | concatenation splits at any point |
| RecordQuery.ProfitSign | DeltaUID/Delta_user/msg_info.py:272-273 | the profit text starts with "-" exactly for a negative profit |
| RecordQuery.TransNumUnsigned | DeltaUID/Delta_user/msg_info.py:273 | the formatted magnitude starts with a digit |
| RecordQuery.FirstRescued | DeltaUID/Delta_user/msg_info.py:353-360 | the first current-user entry with a positive rescue count, or none |
| RecordQuery.Rescued | DeltaUID/Delta_user/msg_info.py:354-358 | definition: an entry of the current user with a positive rescue count, the entry the scan stops at |
| RecordQuery.FindRescueCount | DeltaUID/Delta_user/msg_info.py:346-362 | the loop returns the rescue count the detail answer prescribes, else the record's own |
| RecordQuery.RescueCount | DeltaUID/Delta_user/msg_info.py:346-362 | definition: the record's own rescue count, unless the match detail holds a current-user entry with a positive count; the first such count is shown then |
| RecordQuery.FirstRescuedIs | DeltaUID/Delta_user/msg_info.py:353-360 | the loop stops at the first rescuing entry and no later one |
| RecordQuery.AvgScore | DeltaUID/Delta_user/msg_info.py:365-370 | definition: the score per minute, truncated toward zero, and 0 without a game time |
| RecordQuery.AvgScoreTruncates | DeltaUID/Delta_user/msg_info.py:365-370 | the per-minute score has the total's sign, its magnitude is the floor of the scaled magnitude (magnitude × gametime ≤ 60 × the total's magnitude < (magnitude + 1) × gametime), and negating the total negates it |
| RecordQuery.MatchResultText | DeltaUID/Delta_user/msg_info.py:326-334 | definition: 胜利, 失败 and 中途退出 for 1, 2 and 3; for any other result 未知 followed by the code |
| RecordQuery.OperatorRecordText | DeltaUID/Delta_user/msg_info.py:376-382 | definition: the five-line fallback_message of a battlefield record: number and time, map and operator, result and duration, K/D/A with the rescue count, total and per-minute score |
| RecordQuery.OperatorRender | DeltaUID/Delta_user/msg_info.py:317-400 | definition: a battlefield record rendered with the rescue count its room's match detail gives |
| RecordQuery.OperatorReply | DeltaUID/Delta_user/msg_info.py:310-401 | definition: 本页没有战绩 for an empty page, otherwise the battlefield listing of every record, with no line limit |
| RecordQuery.OperatorHeader | DeltaUID/Delta_user/msg_info.py:315 | definition: the character name, 战场战绩 第, the page and 页 |
| RecordQuery.TdmCalls | DeltaUID/Delta_user/msg_info.py:348-350 | one detail request per record, for that record's room |
| RecordQuery.TdmCallsSnoc | DeltaUID/Delta_user/msg_info.py:317-350 | one more record adds its request at the end |
| RecordQuery.Classify | DeltaUID/Delta_user/msg_info.py:417-452 | a device is producing exactly with a positive object id and time left, with its duration and finish time |
| RecordQuery.ObjectName | DeltaUID/Delta_user/msg_info.py:425-427 | definition: the relate map's name for the object id's text, else 物品 followed by the id |
| RecordQuery.IsProducing | DeltaUID/Delta_user/msg_info.py:423 | definition: `object_id > 0 and left_time > 0` |
| RecordQuery.ClassifyAll | DeltaUID/Delta_user/msg_info.py:417-452 | classifies every device, in order |
| RecordQuery.ViewText | DeltaUID/Delta_user/msg_info.py:459-462 | a device's text is never empty |
| RecordQuery.ViewTexts | DeltaUID/Delta_user/msg_info.py:458-462 | one text per device, in order |
| RecordQuery.DeviceReply | DeltaUID/Delta_user/msg_info.py:457-472 | definition: the device lines joined by line breaks, or the no-data text |
| RecordQuery.TqcFailureAsWritten | DeltaUID/Delta_user/msg_info.py:474 | definition: the failure reply as written, the placeholder text whatever the message |
| RecordQuery.TqcFailureText | DeltaUID/Delta_user/msg_info.py:474 | the failure reply starts with the failure prefix |
| RecordQuery.TqcFailureDropsMessage | DeltaUID/Delta_user/msg_info.py:474 | as written, two different API messages give the same reply |
| RecordQuery.TqcFailureKeepsMessage | DeltaUID/Delta_user/msg_info.py:474 | the corrected reply quotes the API message after the prefix |
| RecordQuery.ClassifyDevices | DeltaUID/Delta_user/msg_info.py:415-452 | the loop builds the classification of every device |
| RecordQuery.JoinDeviceLines | DeltaUID/Delta_user/msg_info.py:457-472 | the loop joins the device texts by line breaks, or gives the no-data text |
| RecordQuery.UnboundUserPrompted | DeltaUID/Delta_user/msg_info.py:160-161 | an unbound user gets the login prompt, and no request is sent |
| RecordQuery.RefusedArgsSendNothing | DeltaUID/Delta_user/msg_info.py:177-220 | refused arguments give one of the three refusal texts, before any request |
| RecordQuery.ScanStopsWith | DeltaUID/Delta_user/msg_info.py:177-220 | the scanner only ever stops with one of the three refusal texts |
| RecordQuery.OperatorPageCalls | DeltaUID/Delta_user/msg_info.py:222-401 | a battlefield page sends the two queries, then one detail request per record, in order |
| RecordQuery.DigitsSingleLine | DeltaUID/Delta_user/msg_info.py:460 | printed numbers hold no line break |
| RecordQuery.SecondsToDurationSingleLine | DeltaUID/Delta_user/msg_info.py:441 | a duration text holds no line break |
| RecordQuery.TqcOneLinePerDevice | DeltaUID/Delta_user/msg_info.py:457-470 | given line-free names, the status reply splits into exactly one line per device |
| RecordQuery.ViewTextSingleLine | DeltaUID/Delta_user/msg_info.py:459-462 | a device's text is one line when its names are |
| DabaGrid.CellDictRoundTrip | RatGrinder/ratgrinder_fight/utils.py:19-26 | a cell's dict has the five keys and reads back as the same cell |
| DabaGrid.ItemsOrEmpty | RatGrinder/ratgrinder_fight/utils.py:16 | definition: `items if items is not None else []` |
| DabaGrid.FreshCell | RatGrinder/ratgrinder_fight/utils.py:5-17 | definition: the cell `MapCell(x, y)` creates: 空地 at (x, y), no items and no container |
| DabaGrid.CellDict | RatGrinder/ratgrinder_fight/utils.py:19-26 | definition: the five-key dict of `to_dict`: x, y, cell_type, container and items |
| DabaGrid.ContainerField | RatGrinder/ratgrinder_fight/utils.py:24 | definition: the container as its text, or None |
| DabaGrid.FreshGrid | RatGrinder/ratgrinder_fight/utils.py:30-36 | the new grid has exactly the in-bounds positions, each holding open ground at its own coordinates |
| DabaGrid.InBounds | RatGrinder/ratgrinder_fight/utils.py:46 | definition: `0 <= x < self.width and 0 <= y < self.height` |
| DabaGrid.Positions | RatGrinder/ratgrinder_fight/utils.py:34-35 | definition: the positions `range(width)` times `range(height)` produce |
| DabaGrid.SetCellView | RatGrinder/ratgrinder_fight/utils.py:38-50 | in bounds, only the cell at (x, y) changes, to the given type, items and container; out of bounds, nothing changes |
| DabaGrid.SetCellClears | RatGrinder/ratgrinder_fight/utils.py:49-50 | absent items and container reset the cell to no items and no container |
| DabaGrid.Column | RatGrinder/ratgrinder_fight/utils.py:35 | the inner loop visits (x, 0) … (x, height-1) |
| DabaGrid.ColumnSnoc | RatGrinder/ratgrinder_fight/utils.py:35 | one more step of the inner loop appends its position |
| DabaGrid.KeyOrder | RatGrinder/ratgrinder_fight/utils.py:34-36 | definition: the positions in insertion order, column by column, x outer and y inner |
| DabaGrid.KeyOrderExact | RatGrinder/ratgrinder_fight/utils.py:34-36 | the insertion order lists every in-bounds position exactly once: width × height positions |
| DabaGrid.DistinctSize | RatGrinder/ratgrinder_fight/utils.py:34-36 | a duplicate-free list has as many elements as its set |
| DabaGrid.FreshGridSize | RatGrinder/ratgrinder_fight/utils.py:30-36 | a new grid holds width × height cells |
| DabaGrid.DictsAt | RatGrinder/ratgrinder_fight/utils.py:55-56 | one dict per listed position, in order, each the dict of that cell |
| DabaGrid.GridDicts | RatGrinder/ratgrinder_fight/utils.py:55-56 | definition: one dict per cell, in insertion order |
| DabaGrid.GridDictsCover | RatGrinder/ratgrinder_fight/utils.py:55-56 | `to_dict` lists width × height dicts in insertion order and covers every cell, each reading back as its cell |
| DabaGrid.FreshCells | RatGrinder/ratgrinder_fight/utils.py:30-36 | cells created fresh view as the fresh grid |
| DabaGrid.AddColumn | RatGrinder/ratgrinder_fight/utils.py:35-36 | after one column, the grid holds exactly the positions of the columns so far, in insertion order; the old cells are kept, the new ones are newly allocated objects, all distinct, each holding the contents of a new cell |
| DabaGrid.MapCell.constructor | RatGrinder/ratgrinder_fight/utils.py:5-17 | the new cell has the given coordinates, type and container, and no items when none are given |
| DabaGrid.MapCell.ToDict | RatGrinder/ratgrinder_fight/utils.py:19-26 | the cell's dict reads back as the cell |
| DabaGrid.MapCell.View | RatGrinder/ratgrinder_fight/utils.py:13-17 | definition: the five fields of a cell, as a value |
| DabaGrid.DabaMap.Cells | RatGrinder/ratgrinder_fight/utils.py:30-36 | the grid's contents are well formed: in-bounds keys, each cell at its own key |
| DabaGrid.DabaMap.Valid | RatGrinder/ratgrinder_fight/utils.py:30-36 | definition: the invariant every method keeps: a cell exactly at each in-bounds position, each knowing its own position, no two positions sharing a cell, and the insertion order x outer, y inner |
| DabaGrid.DabaMap.constructor | RatGrinder/ratgrinder_fight/utils.py:30-36 | a new map with the given size whose contents are the fresh grid; every cell is a newly allocated object, distinct from every other |
| DabaGrid.DabaMap.SetCell | RatGrinder/ratgrinder_fight/utils.py:38-50 | updates the grid as `SetCellView` prescribes, in place |
| DabaGrid.DabaMap.GetCell | RatGrinder/ratgrinder_fight/utils.py:52-53 | None exactly out of bounds; otherwise the stored cell object for (x, y) |
| DabaGrid.DabaMap.ToDict | RatGrinder/ratgrinder_fight/utils.py:55-56 | the list of cell dicts in insertion order |
| DabaGrid.DabaMap.CellDicts | RatGrinder/ratgrinder_fight/utils.py:56 | the dicts of the listed cells |
| Bag.Raw | RatGrinder/ratgrinder_item/bag.py:39-46 | definition: the header line, then one "item: count" line per entry, each ended by a line break |
| Bag.Show | RatGrinder/ratgrinder_item/bag.py:46 | definition: `f"{v}"`: a text verbatim, an integer in decimal, and None as "None" |
| Bag.Lookup | RatGrinder/ratgrinder_item/bag.py:42-43 | definition: `d.get(k)`: the value under the key, or None |
| Bag.EntryLine | RatGrinder/ratgrinder_item/bag.py:41-46 | definition: `f"{item}: {count}"` of one entry, read from a pair or through `.get('name')` and `.get('count')` of a dict |
| Bag.ItemOf | RatGrinder/ratgrinder_item/bag.py:41-45 | definition: the item of an entry: the pair's first element, or `entry.get('name')` of a dict |
| Bag.CountOf | RatGrinder/ratgrinder_item/bag.py:41-45 | definition: the count of an entry: the pair's second element, or `entry.get('count')` of a dict |
| Bag.Block | RatGrinder/ratgrinder_item/bag.py:39-46 | definition: the loop's text: the start text, then one line per element, each ended by a line break |
| Bag.BagText | RatGrinder/ratgrinder_item/bag.py:36-48 | definition: the empty-bag text for an empty bag, otherwise the built text stripped |
| Bag.BagIntoMsg | RatGrinder/ratgrinder_item/bag.py:26-48 | the reply is `BagText`: the empty-bag text, or the stripped listing |
| Bag.AppendEntries | RatGrinder/ratgrinder_item/bag.py:39-46 | the loop builds the header line and one "item: count" line per entry |
| Bag.DictEntryIsPair | RatGrinder/ratgrinder_item/bag.py:41-45 | a dict with name and count reads like the pair of them |
| Bag.RStripTrailingSpace | RatGrinder/ratgrinder_item/bag.py:48 | a trailing blank is stripped first |
| Bag.RStripKeeps | RatGrinder/ratgrinder_item/bag.py:48 | stripping keeps everything up to the last non-blank |
| Bag.RawIsJoin | RatGrinder/ratgrinder_item/bag.py:39-46 | before stripping, the text is the header, the entry lines joined by line breaks, and a final one |
| Bag.BlockIsJoin | RatGrinder/ratgrinder_item/bag.py:39-46 | a header and lines, each line ended by a break, joins the same way |
| Bag.JoinLineStep | RatGrinder/ratgrinder_item/bag.py:46 | one more line extends the join |
| Bag.BagTextIsJoinedLines | RatGrinder/ratgrinder_item/bag.py:39-48 | a non-empty bag gives the header and the joined entry lines, with only the trailing whitespace removed |
| Bag.JoinStartsWithFirst | RatGrinder/ratgrinder_item/bag.py:39-46 | a join starts with its first part |
| Bag.StrippedJoinShape | RatGrinder/ratgrinder_item/bag.py:48 | stripping keeps the header and ends in a non-blank |
| Bag.BagTextShape | RatGrinder/ratgrinder_item/bag.py:36-48 | the reply never ends in whitespace; it is the empty-bag text exactly for an empty bag; otherwise it starts with the header line |
| Bag.PrefixDiffers | RatGrinder/ratgrinder_item/bag.py:36-39 | a text differs from any text that disagrees with its prefix |
| Bag.SplitJoinedLines | RatGrinder/ratgrinder_item/bag.py:39-48 | a stripped header-and-lines text splits back apart |
| Bag.BagLines | RatGrinder/ratgrinder_item/bag.py:36-48 | with line-free entries, the reply splits into the header and one line per entry, in the bag's order |
| Bag.JoinEndsWithLast | RatGrinder/ratgrinder_item/bag.py:39-48 | a join ends with its last part |

## Left out

- DeltaLogin.LoginSession.ProcessLoginResult: follows the corrected store calls of the first Findings row. As written (`login.py:72-73`), `DFUser.insert_user` reads `bot_id` from the string it is given and raises `AttributeError` before any row is written. `login_in` catches it (`login.py:230-233`) and sends "登录过程发生错误，请稍后重试", so no login ever returns user data. `DeltaLogin.ProcessEffectsAsWritten` and `DeltaLogin.StoreCallsRaise` model that path.
- DeltaLogin.LoginStoresIffSuccess: holds of the corrected flow. As written, the tables never change and no user data is returned, so the 登录 command then replies "登录失败，请检查输入" (`Delta_login/__init__.py:48`) and `insert_uid` never runs.
- DeltaLoginCommands.AddCk: follows the corrected store call of the second Findings row. As written (`Delta_login/__init__.py:136`), the same `AttributeError` escapes `add_ck` uncaught, so no row is written and "添加ck成功!" is never sent. `DeltaLoginCommands.AddCkEffectsAsWritten` and `DeltaLoginCommands.AddCkRaises` model that path.
- `utils/database/models.py` is not part of this model beyond the two `insert_user` signatures. The rows are stored under the user and the bot id.
- The ORM upsert semantics of `DFUser` and `DFBind` are not modelled. Each table is a map from (user, bot) to the last row written.
- The bind-table queries (`insert_uid`, `switch_uid_by_game`, `get_uid_by_game`, `delete_uid`) are inputs (`BindAnswers`). `send_diff_msg` is logged as a `DiffReply` of the code and the table, not resolved to a text.
- Network I/O, the sleeps and the image download are effects in a log or answers of a fixed script. None of them takes time or can fail other than as scripted.
- Loggers (`bot.logger`, `logger`) are dropped.
- The `except Exception` of `login_in` (`login.py:230-233`) is not modelled. In the model every backend answer is well formed, so no exception arises.
- `.get` defaults on API payloads are modelled by typed records. Each record holds the value, so the missing-key paths of the record and device dicts are not modelled.
- DeltaUtil.TransNum: formats through exact integer round-half-up instead of Python's float division and `.1f` rounding. The two differ when the remainder is exactly a half (Python rounds the float, which is often half-to-even). They also differ for large values: from about 10^16 the float quotient `num / 1000000` no longer fixes the tenth digit. From about 6·10^20 even exact multiples of 100000 print wrongly in Python: 10^22 + 300000 gives "10000000000000000.0M" there and "10000000000000000.3M" in the model. From about 1.8·10^314 the float division raises `OverflowError`, which the model does not have. DeltaUtil.TransNumIsNearestTenth and DeltaUtil.TransNumExact state the exact-arithmetic behaviour, not Python's in these ranges.
- RecordQuery.AvgScore: models `int(TotalScore * 60 / gametime)` as integer division truncated toward zero. The source divides in floating point first, which can differ for very large totals.
- The device progress percentage (`msg_info.py:429-434`) is dropped. It is a float, and it never appears in the reply.
- RecordQuery.Classify: the finish time `fromtimestamp(...).strftime(...)` is a clock parameter (`Clock`). The time zone and the format are not modelled.
- DeltaUtil.SundayOffset: the offset arithmetic of `get_Sunday_date` is modelled. Reading the clock and formatting the date are not modelled.
- `timestamp_to_readable`, `get_micro_time`, `avatar_trans`, `parse_event_time`, `is_record_within_time_limit`, `generate_record_id` and `armed_to_img` are not part of this model. They are clock-, URL-, image- or time-bound.
- Text.ParseSigned: `int()` is modelled on ASCII digits with an optional sign and surrounding whitespace. Unicode digits and `_` separators are not accepted.
- Text.Lower: lowers ASCII capitals only. Python's `lower()` also lowers other letters and can change the length ('İ' becomes two characters). For the platform tests of `login_in` against "", "qq" and "微信" (`login.py:214-216`), both decide alike: no non-ASCII character lowers to an ASCII letter, and "微信" has no case.
- Text.IsSpace: follows Python's `str.isspace` for the characters listed in the code. No Unicode normalisation is modelled.
- The typeId-neither-4-nor-5 branch of `get_record` cannot be reached after the argument parser, so the model has no reply for it.
- `relate_map` entries without an `objectName`: the model's relate map holds names only. A missing entry gives the `物品<id>` fallback.
- DeltaUtil.ParseApiResponse: a success code that is a dict or a list is quoted through `Display`, which shows "{...}" or "[...]". Python's f-string shows the container's repr, such as "{'a': 1}". A repr needs the dict's insertion order and Python's quoting, which the map-based `Value` does not carry. Scalar codes (None, booleans, integers, strings) are quoted as Python quotes them.
- DeltaLogin.LoginSession.LoginWithQq: when `get_sig` reports a false status together with a dict message, the failure text shows "{...}" (`SigMessageText`) where Python shows the dict's repr, for the same reason. A plain-string message is quoted exactly.
- RecordQuery.MsgInfo.constructor: `MsgInfo.__init__` is declared `async def` (`msg_info.py:21`). So `MsgInfo(user_id, bot_id)` raises `TypeError` in Python, because `__init__` returns a coroutine, and `user_data` is never set. The model follows the evident intent, an awaited `DFUser.select_data(user_id, bot_id)`, and does not model the `TypeError`.
- DeltaUtil.ArmedForceName: the `ValueError` that `int()` raises on a non-numeric text id is the `None` result; the exception itself is not modelled.
- `get_bag_info` (`bag.py:4-23`) reads the database and is not modelled. `bag_into_msg` is.
- Bag.BagIntoMsg: a non-dict entry goes through `item, count = entry`, which unpacks any two-element iterable: a tuple, a list, or a two-character string. The model's `Pair` stands for all of these through their two elements. An entry that does not unpack into exactly two values raises `ValueError` in Python; the entry type excludes it.
- DabaGrid.DabaMap.ToDict: the `items` list in a cell's dict is a copy in the model. In Python it is the cell's own list, shared by reference.
- DabaGrid.MapCell.constructor: stores the `items` given as a value. Python stores the caller's own list (`utils.py:16`), so a later change the caller makes to that list shows in the cell. The model does not capture that sharing.
- DabaGrid.DabaMap.SetCell: stores the `items` given as a value. Python stores the caller's own list (`utils.py:49`), shared by reference as for the constructor.
- DabaGrid.DabaMap.GetCell: returns the stored object, so aliasing through the grid is captured. Mutation of a returned cell by outside code is not modelled.
- The `if __name__ == "__main__"` demo of `ratgrinder_fight/utils.py` is not modelled.
- `get_msg_info` and the rest of `MsgInfo` are not modelled, except the unbound check they share with `get_record` and `get_tqc`.

## Findings

| source | as written | input that shows it | evidently intended | confidence | as-written member | corrected member |
|---|---|---|---|---|---|---|
| DeltaUID/Delta_login/login.py:72-73 | `DFUser.insert_user(bot.bot_id, user_data)` and `DFBind.insert_user(ev, bot.bot_id, user_data)` pass a string where `utils/database/models.py:18,32` expects a `Bot`; reading `bot.bot_id` raises `AttributeError` before any row is written, and `login_in` answers with its error text | any QQ or WeChat login whose token, bind and player queries all succeed | passing `bot`, so both rows are stored and the success message is sent | not executed | DeltaLogin.StoreCallsRaise | DeltaLogin.ProcessOutcome |
| DeltaUID/Delta_login/__init__.py:136 | `DFUser.insert_user(bot.bot_id, user_data)` raises `AttributeError` in `add_ck`, uncaught: no row and no "添加ck成功!" | the block "openid:a", "token:b", "platform:qq" on three lines | passing `bot`, so the row is stored and the success reply sent | not executed | DeltaLoginCommands.AddCkRaises | DeltaLoginCommands.AddCk |
| DeltaUID/Delta_user/msg_info.py:474 | the failure reply is a plain string literal, so `{res['message']}` appears verbatim and the API's message is lost | two failures with messages "token过期" and "系统繁忙" give the same reply | an f-string that quotes the API's message after "获取特勤处状态失败：" | not executed | RecordQuery.TqcFailureDropsMessage | RecordQuery.TqcFailureKeepsMessage |
