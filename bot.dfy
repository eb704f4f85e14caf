/**
 * The command handlers of the access bot: `/start`, `/gameslot`, free text
 * and the admin-only `/check`, over the user status store.
 *
 * The chat platform is abstracted away. A membership lookup is an input (the
 * member's status string, or the failure the lookup raised) and a reply is a
 * returned `Reply` value. Handlers that write the store are methods on a
 * `UserStore`; each is proved to perform exactly the writes of a pure
 * description (`StartOps`, `MessageOps`), in the code's order, and to give the
 * reply of a pure reply function. The lemmas state what those descriptions
 * mean for the user's record.
 */
module Bot {
  import opened Store

  datatype Option<T> = None | Some(value: T)

  /** The outcome of one membership lookup: the member's status, or a failed lookup. */
  datatype Lookup = Found(status: string) | Failed

  /** The statuses that count as being in a channel. */
  const MemberStatuses: seq<string> := ["member", "administrator", "creator"]

  /**
   * The membership predicate applied to each lookup's status: it holds for
   * exactly "member", "administrator" and "creator", so a user who has left,
   * was kicked or is restricted does not count.
   */
  predicate IsMember(status: string): (b: bool)
    ensures b <==> status == "member" || status == "administrator" || status == "creator"
  {
    status in MemberStatuses
  }

  /** A successful lookup whose status passes the membership predicate. */
  predicate Joined(l: Lookup)
  {
    l.Found? && IsMember(l.status)
  }

  /** The web-app and invite links the bot's buttons carry. */
  const MainGameUrl := "https://telegram-game-bot-agfc.onrender.com"
  const SlotGameUrl := "https://silver-hornets-sneeze.loca.lt"
  const ChannelInviteUrl := "https://t.me/+-CNLz4Ywnx80NmYy"

  /** The normalised free text that claims a completed registration. */
  const Trigger := "я зарегистрировался"

  /** Which lookup failed, as told to the user. */
  datatype Failure = SubscriptionCheckFailed | StatusCheckFailed

  /** Every reply a handler can give, with the link its button carries. */
  datatype Reply =
    | FullAccess(gameUrl: string)       // "access open" with a web-app button
    | GameslotAccess(gameUrl: string)   // "/gameslot access open" with a web-app button
    | JoinDiscussion                    // button to the configured discussion link
    | Subscribe(channelUrl: string)     // button to the main channel invite
    | Denied                            // no access through /gameslot
    | NotYetQualified                   // the trigger phrase, without both flags
    | Fallback                          // any other text
    | Error(failure: Failure)
    | NoReply
    | StatusReport(target: int, status: Record)

  // ---------------------------------------------------------------------
  // Reply policy
  // ---------------------------------------------------------------------

  /**
   * The access decision `/start` makes from a stored status: the game link
   * when both flags hold, the discussion prompt when only `subscribed` does,
   * the subscribe prompt otherwise. Exactly one of the three is chosen.
   */
  function AccessReply(s: Record): (r: Reply)
    ensures r == FullAccess(MainGameUrl) <==> s.subscribed && s.verifJoined
    ensures r == JoinDiscussion <==> s.subscribed && !s.verifJoined
    ensures r == Subscribe(ChannelInviteUrl) <==> !s.subscribed
    ensures r.FullAccess? || r.JoinDiscussion? || r.Subscribe?
  {
    if s.subscribed && s.verifJoined then FullAccess(MainGameUrl)
    else if s.subscribed then JoinDiscussion
    else Subscribe(ChannelInviteUrl)
  }

  // ---------------------------------------------------------------------
  // /start
  // ---------------------------------------------------------------------

  /**
   * The store writes of `/start`, in order: insert the user; if the main
   * channel lookup succeeded, overwrite `subscribed`; if the verification
   * lookup then succeeded, overwrite `verif_joined` and, for a member, mark
   * the user registered. A failed lookup ends the sequence.
   */
  function StartOps(id: int, main: Lookup, verif: Lookup): seq<StoreOp>
  {
    if main.Failed? then [Add(id)]
    else if verif.Failed? then [Add(id), SetSubscribed(id, IsMember(main.status))]
    else if IsMember(verif.status) then
      [Add(id), SetSubscribed(id, IsMember(main.status)), SetVerification(id, true), SetRegistered(id)]
    else
      [Add(id), SetSubscribed(id, IsMember(main.status)), SetVerification(id, false)]
  }

  /** The reply of `/start`: the generic error after a failed lookup, else the access decision on the re-read status. */
  function StartReply(t: Table, id: int, main: Lookup, verif: Lookup): Reply
  {
    if main.Failed? || verif.Failed? then Error(SubscriptionCheckFailed)
    else AccessReply(StatusOf(ApplyAll(t, StartOps(id, main, verif)), id))
  }

  /**
   * After a `/start` whose lookups both succeed, the user has a record whose
   * `subscribed` and `verif_joined` are the two membership predicates and
   * whose `registered` became true for a verification member and otherwise
   * kept its earlier value; the reply is the game link iff both predicates
   * hold, the discussion prompt iff only the main one does, and the
   * subscribe prompt otherwise.
   */
  lemma {:induction false} StartSucceeds(t: Table, id: int, main: Lookup, verif: Lookup)
    requires main.Found? && verif.Found?
    ensures var r := ApplyAll(t, StartOps(id, main, verif));
      id in r &&
      r[id].subscribed == IsMember(main.status) &&
      r[id].verifJoined == IsMember(verif.status) &&
      r[id].registered == (IsMember(verif.status) || StatusOf(t, id).registered)
    ensures StartReply(t, id, main, verif) == FullAccess(MainGameUrl) <==> Joined(main) && Joined(verif)
    ensures StartReply(t, id, main, verif) == JoinDiscussion <==> Joined(main) && !Joined(verif)
    ensures StartReply(t, id, main, verif) == Subscribe(ChannelInviteUrl) <==> !Joined(main)
  {
    var m, v := IsMember(main.status), IsMember(verif.status);
    var r1 := Apply(t, Add(id));
    var r2 := Apply(r1, SetSubscribed(id, m));
    var r3 := Apply(r2, SetVerification(id, v));
    ApplyAllSingle(t, Add(id));
    ApplyAllSnoc(t, [Add(id)], SetSubscribed(id, m));
    assert [Add(id)] + [SetSubscribed(id, m)] == [Add(id), SetSubscribed(id, m)];
    ApplyAllSnoc(t, [Add(id), SetSubscribed(id, m)], SetVerification(id, v));
    assert [Add(id), SetSubscribed(id, m)] + [SetVerification(id, v)]
        == [Add(id), SetSubscribed(id, m), SetVerification(id, v)];
    assert ApplyAll(t, [Add(id), SetSubscribed(id, m), SetVerification(id, v)]) == r3;
    if v {
      ApplyAllSnoc(t, [Add(id), SetSubscribed(id, m), SetVerification(id, true)], SetRegistered(id));
      assert [Add(id), SetSubscribed(id, m), SetVerification(id, true)] + [SetRegistered(id)]
          == StartOps(id, main, verif);
    }
  }

  /**
   * A `/start` whose main channel lookup fails only inserts the user; one
   * whose verification lookup fails has already overwritten `subscribed` and
   * leaves `verif_joined` and `registered` as they were. Either way the reply
   * is the generic error.
   */
  lemma StartLookupFails(t: Table, id: int, main: Lookup, verif: Lookup)
    requires main.Failed? || verif.Failed?
    ensures StartReply(t, id, main, verif) == Error(SubscriptionCheckFailed)
    ensures main.Failed? ==> ApplyAll(t, StartOps(id, main, verif)) == Apply(t, Add(id))
    ensures main.Found? ==>
      var r := ApplyAll(t, StartOps(id, main, verif));
      id in r &&
      r[id].subscribed == IsMember(main.status) &&
      r[id].verifJoined == StatusOf(t, id).verifJoined &&
      r[id].registered == StatusOf(t, id).registered
  {
  }

  /** `/start` writes only the caller's row: every other user keeps their row, or their absence of one. */
  lemma StartOnlyTouchesCaller(t: Table, id: int, main: Lookup, verif: Lookup, k: int)
    requires k != id
    ensures var r := ApplyAll(t, StartOps(id, main, verif));
      (k in r <==> k in t) && (k in t ==> r[k] == t[k])
  {
  }

  /**
   * `/start`, step by step: insert the user, look up the main channel,
   * overwrite `subscribed`, look up the verification group, overwrite
   * `verif_joined`, mark registered for a member, re-read the status and
   * reply. A failed lookup replies with the generic error and stops there.
   * The second lookup is only made (and its input only read) when the first
   * succeeded.
   */
  method Start(store: UserStore, id: int, main: Lookup, verif: Lookup) returns (reply: Reply)
    modifies store
    ensures store.users == ApplyAll(old(store.users), StartOps(id, main, verif))
    ensures reply == StartReply(old(store.users), id, main, verif)
  {
    ghost var t := store.users;
    store.AddUser(id);
    ApplyAllSingle(t, Add(id));
    if main.Failed? {
      return Error(SubscriptionCheckFailed);
    }
    var isSubscribed := IsMember(main.status);
    store.UpdateSubscription(id, isSubscribed);
    ApplyAllSnoc(t, [Add(id)], SetSubscribed(id, isSubscribed));
    assert [Add(id)] + [SetSubscribed(id, isSubscribed)] == [Add(id), SetSubscribed(id, isSubscribed)];
    if verif.Failed? {
      return Error(SubscriptionCheckFailed);
    }
    var isInVerif := IsMember(verif.status);
    store.UpdateVerification(id, isInVerif);
    ghost var ops := [Add(id), SetSubscribed(id, isSubscribed), SetVerification(id, isInVerif)];
    ApplyAllSnoc(t, [Add(id), SetSubscribed(id, isSubscribed)], SetVerification(id, isInVerif));
    assert [Add(id), SetSubscribed(id, isSubscribed)] + [SetVerification(id, isInVerif)] == ops;
    if isInVerif {
      store.MarkRegistered(id);
      ApplyAllSnoc(t, ops, SetRegistered(id));
      assert ops + [SetRegistered(id)] == StartOps(id, main, verif);
    }
    var status := store.GetUserStatus(id);
    reply := AccessReply(status);
  }

  // ---------------------------------------------------------------------
  // /gameslot
  // ---------------------------------------------------------------------

  /**
   * `/gameslot` looks up the verification group only and reads or writes
   * no store: access iff the lookup succeeds with a member status, the
   * denial for a non-member, its own error message for a failed lookup.
   */
  function Gameslot(verif: Lookup): (r: Reply)
    ensures r == GameslotAccess(SlotGameUrl) <==> Joined(verif)
    ensures r == Denied <==> verif.Found? && !IsMember(verif.status)
    ensures r == Error(StatusCheckFailed) <==> verif.Failed?
  {
    match verif
    case Failed => Error(StatusCheckFailed)
    case Found(status) => if IsMember(status) then GameslotAccess(SlotGameUrl) else Denied
  }

  // ---------------------------------------------------------------------
  // Free text
  // ---------------------------------------------------------------------

  /** Both stored flags hold: the user counts as fully qualified. */
  predicate Qualified(s: Record)
  {
    s.subscribed && s.verifJoined
  }

  /** The store writes of the free-text handler: `mark_registered` for a qualified user who sent the trigger. */
  function MessageOps(t: Table, id: int, text: string): seq<StoreOp>
  {
    if text == Trigger && Qualified(StatusOf(t, id)) then [SetRegistered(id)] else []
  }

  /** The reply of the free-text handler, from the status stored before it runs. */
  function MessageReply(t: Table, id: int, text: string): Reply
  {
    if text != Trigger then Fallback
    else if Qualified(StatusOf(t, id)) then FullAccess(SlotGameUrl)
    else NotYetQualified
  }

  /**
   * The free-text handler marks the user registered exactly when the text is
   * the trigger and both stored flags hold, and then grants the game link;
   * the trigger without both flags gets the not-yet prompt, any other text the
   * fixed fallback, and in both of those cases the store is unchanged.
   */
  lemma MessageEffect(t: Table, id: int, text: string)
    ensures var r := ApplyAll(t, MessageOps(t, id, text));
      if text == Trigger && Qualified(StatusOf(t, id)) then
        id in t && r == t[id := t[id].(registered := true)] &&
        MessageReply(t, id, text) == FullAccess(SlotGameUrl)
      else
        r == t &&
        MessageReply(t, id, text) == (if text == Trigger then NotYetQualified else Fallback)
  {
  }

  /**
   * The free-text handler on already-normalised text: on the trigger it
   * re-reads the status and, for a qualified user, marks them registered
   * and grants access; other text gets the fallback.
   */
  method HandleMessage(store: UserStore, id: int, text: string) returns (reply: Reply)
    modifies store
    ensures store.users == ApplyAll(old(store.users), MessageOps(old(store.users), id, text))
    ensures reply == MessageReply(old(store.users), id, text)
  {
    ghost var t := store.users;
    if text == Trigger {
      var status := store.GetUserStatus(id);
      if status.subscribed && status.verifJoined {
        store.MarkRegistered(id);
        ApplyAllSingle(t, SetRegistered(id));
        reply := FullAccess(SlotGameUrl);
      } else {
        reply := NotYetQualified;
      }
    } else {
      reply := Fallback;
    }
  }

  // ---------------------------------------------------------------------
  // /check
  // ---------------------------------------------------------------------

  /** The user `/check` reports on: the argument when one is given, else the caller. */
  function CheckTarget(caller: int, arg: Option<int>): (target: int)
    ensures arg.Some? ==> target == arg.value
    ensures arg.None? ==> target == caller
  {
    if arg.Some? then arg.value else caller
  }

  /**
   * `/check`: nothing at all for anyone but the configured admin; for the
   * admin, a report on the target (the argument, or the admin themself when
   * there is none) holding exactly the target's stored flags, all false for
   * an unknown target. A target outside SQLite's 64-bit INTEGER range makes
   * the store lookup raise, which the handler does not catch, so nothing is
   * sent. It only reads the store.
   */
  method Check(store: UserStore, adminId: int, caller: int, arg: Option<int>) returns (reply: Reply)
    ensures reply == NoReply <==> caller != adminId || !FitsSqliteInteger(CheckTarget(caller, arg))
    ensures caller == adminId && FitsSqliteInteger(CheckTarget(caller, arg)) ==>
      reply.StatusReport? &&
      reply.target == CheckTarget(caller, arg) &&
      (reply.target in store.users ==> reply.status == store.users[reply.target]) &&
      (reply.target !in store.users ==> reply.status == NewRecord)
  {
    if caller != adminId {
      return NoReply;
    }
    var target := CheckTarget(caller, arg);
    if !FitsSqliteInteger(target) {
      return NoReply;
    }
    var status := store.GetUserStatus(target);
    reply := StatusReport(target, status);
  }

  // ---------------------------------------------------------------------
  // Reply texts
  // ---------------------------------------------------------------------

  /** The mark shown for one flag of the report. */
  function Mark(b: bool): (m: string)
    ensures |m| == 1
    ensures m[0] == '✅' <==> b
    ensures m[0] == '❌' <==> !b
  {
    if b then "✅" else "❌"
  }

  function DigitChar(d: nat): (c: char)
    requires d < 10
    ensures '0' <= c <= '9'
  {
    "0123456789"[d]
  }

  /** The decimal digits of a natural number, as Python's `str` writes them. */
  function Digits(n: nat): (s: string)
    ensures |s| > 0
    ensures forall i :: 0 <= i < |s| ==> '0' <= s[i] <= '9'
    ensures |s| > 1 ==> s[0] != '0'
    decreases n
  {
    if n < 10 then [DigitChar(n)] else Digits(n / 10) + [DigitChar(n % 10)]
  }

  /** Reads back a string of decimal digits. */
  function ParseDigits(s: string): nat
    requires forall i :: 0 <= i < |s| ==> '0' <= s[i] <= '9'
    decreases |s|
  {
    if s == [] then 0 else ParseDigits(s[..|s| - 1]) * 10 + (s[|s| - 1] as int - '0' as int)
  }

  /** The digits of a number read back as that number. */
  lemma {:induction false} DigitsRoundTrip(n: nat)
    ensures ParseDigits(Digits(n)) == n
    decreases n
  {
    var s := Digits(n);
    if n >= 10 {
      assert s[..|s| - 1] == Digits(n / 10);
      DigitsRoundTrip(n / 10);
    }
  }

  /** A user id written in decimal, with a leading minus sign when negative. */
  function IntText(i: int): (s: string)
    ensures |s| > 0
    ensures s[0] == '-' <==> i < 0
  {
    if i < 0 then "-" + Digits(-i) else Digits(i)
  }

  const ReportHeader := "Статус пользователя "
  const SubscriptionLine := "Подписка: "
  const VerificationLine := "\nВерификация: "
  const RegistrationLine := "\nРегистрация: "

  /**
   * The text of the `/check` report: a header naming the target in decimal,
   * then one mark per stored flag in the order subscription, verification,
   * registration, so that the three flags read back from it.
   */
  function ReportText(target: int, s: Record): (text: string)
    ensures |text| > |ReportHeader| + |IntText(target)|
    ensures text[..|ReportHeader|] == ReportHeader
    ensures text[|ReportHeader|..|ReportHeader| + |IntText(target)|] == IntText(target)
  {
    var id := IntText(target);
    var tail := ":\n" + SubscriptionLine + Mark(s.subscribed) +
      VerificationLine + Mark(s.verifJoined) +
      RegistrationLine + Mark(s.registered);
    var text := ReportHeader + (id + tail);
    assert text[..|ReportHeader|] == ReportHeader;
    assert text[|ReportHeader|..] == id + tail;
    assert (id + tail)[..|id|] == id;
    text
  }

  /** Reads the mark at position `i` of a text, if it is one. */
  function ReadMark(text: string, i: int): Option<bool>
  {
    if 0 <= i < |text| && text[i] == '✅' then Some(true)
    else if 0 <= i < |text| && text[i] == '❌' then Some(false)
    else None
  }

  /** Reads the three flags back from the end of a report text. */
  function ReadReport(text: string): Option<Record>
  {
    var n := |text|;
    var i3 := n - 1;
    var i2 := i3 - |RegistrationLine| - 1;
    var i1 := i2 - |VerificationLine| - 1;
    match (ReadMark(text, i1), ReadMark(text, i2), ReadMark(text, i3))
    case (Some(b1), Some(b2), Some(b3)) => Some(Record(b1, b2, b3))
    case _ => None
  }

  /** The report shows each of the three stored flags, one mark each, so they read back from it. */
  lemma ReportShowsEachFlag(target: int, s: Record)
    ensures ReadReport(ReportText(target, s)) == Some(s)
  {
  }

  /** The message text of each reply; `NoReply` is the only one with nothing to send. */
  function ReplyText(r: Reply): (text: string)
    ensures text == [] <==> r == NoReply
  {
    match r
    case FullAccess(_) => "Доступ открыт!"
    case GameslotAccess(_) => "Доступ через /gameslot открыт!"
    case JoinDiscussion => "Подпишитесь на обсуждение канала."
    case Subscribe(_) => "Подпишитесь на наш канал, чтобы продолжить."
    case Denied => "У вас нет доступа через /gameslot. Подпишитесь на канал и участвуйте в постбеках."
    case NotYetQualified => "Сначала подпишитесь на канал и участвуйте в обсуждении."
    case Fallback => "Напишите 'я зарегистрировался' после регистрации."
    case Error(SubscriptionCheckFailed) => "Произошла ошибка при проверке подписки."
    case Error(StatusCheckFailed) => "Не удалось проверить ваш статус."
    case NoReply => ""
    case StatusReport(target, status) => ReportText(target, status)
  }

  // ---------------------------------------------------------------------
  // Dispatch and runs of several updates
  // ---------------------------------------------------------------------

  /** One inbound update, with the lookup results the platform would give for it. */
  datatype Event =
    | StartCmd(user: int, main: Lookup, verif: Lookup)
    | GameslotCmd(user: int, verif: Lookup)
    | Message(user: int, text: string)
    | CheckCmd(user: int, arg: Option<int>)

  /** The store writes one update causes. */
  function EventOps(t: Table, e: Event): seq<StoreOp>
  {
    match e
    case StartCmd(id, main, verif) => StartOps(id, main, verif)
    case Message(id, text) => MessageOps(t, id, text)
    case GameslotCmd(_, _) => []
    case CheckCmd(_, _) => []
  }

  /** The routing of each update to its handler, which gives that handler's reply. */
  method Dispatch(store: UserStore, adminId: int, e: Event) returns (reply: Reply)
    modifies store
    ensures store.users == ApplyAll(old(store.users), EventOps(old(store.users), e))
    ensures e.StartCmd? ==> reply == StartReply(old(store.users), e.user, e.main, e.verif)
    ensures e.GameslotCmd? ==> reply == Gameslot(e.verif)
    ensures e.Message? ==> reply == MessageReply(old(store.users), e.user, e.text)
    ensures e.CheckCmd? ==>
      (reply == NoReply <==> e.user != adminId || !FitsSqliteInteger(CheckTarget(e.user, e.arg)))
    ensures e.CheckCmd? && e.user == adminId && FitsSqliteInteger(CheckTarget(e.user, e.arg)) ==>
      reply == StatusReport(CheckTarget(e.user, e.arg), StatusOf(old(store.users), CheckTarget(e.user, e.arg)))
  {
    match e
    case StartCmd(id, main, verif) =>
      reply := Start(store, id, main, verif);
    case GameslotCmd(_, verif) =>
      reply := Gameslot(verif);
    case Message(id, text) =>
      reply := HandleMessage(store, id, text);
    case CheckCmd(caller, arg) =>
      reply := Check(store, adminId, caller, arg);
  }

  /**
   * The table after a run of updates handled one after another. No run
   * removes a user, and once a user is registered they stay registered.
   */
  function Run(t: Table, events: seq<Event>): (r: Table)
    ensures t.Keys <= r.Keys
    ensures forall k :: k in t && t[k].registered ==> r[k].registered
    decreases |events|
  {
    if events == [] then t else Run(ApplyAll(t, EventOps(t, events[0])), events[1..])
  }

  /**
   * A `/start` that finds the user in the verification group leaves them
   * registered, and registered they remain through every later update, even
   * ones that set `verif_joined` back to false.
   */
  lemma {:induction false} VerifiedUserStaysRegistered(t: Table, id: int, main: Lookup, verif: Lookup, later: seq<Event>)
    requires main.Found? && Joined(verif)
    ensures var r := Run(ApplyAll(t, StartOps(id, main, verif)), later);
      id in r && r[id].registered
  {
    StartSucceeds(t, id, main, verif);
  }
}
