/** The conversation pane: how a message is laid out (side, avatar,
    timestamp), which branch is rendered, and the effect that loads and
    subscribes to the selected contact's conversation. */
module ChatView {
  import opened Domain
  import opened JsText
  import opened Auth
  import opened Chat

  const DefaultAvatar: string := "/avatar.png"

  /** `secondJoin` of `parseTime`: the first two `:`-separated fields of
      `part2` joined by `:`. A missing second field is JavaScript's
      `undefined`, which concatenates as the word "undefined". With a `:`
      in `part2` the result is the longest prefix of `part2` holding exactly
      one `:`: it stops at the second `:` or at the end; without one it is
      `part2` followed by ":undefined". */
  function HoursMinutes(part2: string): (hm: string)
    ensures ':' in part2 ==>
      && hm <= part2 && ':' in hm && ':' !in hm[IndexOf(hm, ':') + 1..]
      && (|hm| == |part2| || part2[|hm|] == ':')
    ensures ':' !in part2 ==> hm == part2 + ":undefined"
  {
    var fields := Split(part2, ':');
    if |fields| >= 2 then
      var rest := Join(fields[1..], ':');
      assert part2 == fields[0] + [':'] + rest;
      JoinStartsWithFirst(fields[1..], ':');
      OneColonPrefix(fields[0], fields[1], rest);
      fields[0] + ":" + fields[1]
    else
      fields[0] + ":" + "undefined"
  }

  /** `a : b`, where neither `a` nor `b` has a `:` and `rest` starts with
      `b` followed by the end or a `:`, is the longest prefix of
      `a : rest` with exactly one `:`. */
  lemma OneColonPrefix(a: string, b: string, rest: string)
    requires ':' !in a && ':' !in b
    requires b <= rest && (|rest| == |b| || rest[|b|] == ':')
    ensures var hm, whole := a + ":" + b, a + [':'] + rest;
      && hm <= whole && ':' in hm && ':' !in hm[IndexOf(hm, ':') + 1..]
      && (|hm| == |whole| || whole[|hm|] == ':')
  {
    var hm, whole := a + ":" + b, a + [':'] + rest;
    assert hm[..|a|] == a && hm[|a|] == ':';
    IndexOfUnique(hm, ':', |a|);
    assert hm[|a| + 1..] == b;
    if |hm| < |whole| {
      assert whole[|hm|] == rest[|b|];
    }
  }

  /** The pieces joined back start with the first piece, followed by the
      end or the separator. */
  lemma JoinStartsWithFirst(parts: seq<string>, sep: char)
    requires |parts| >= 1
    ensures parts[0] <= Join(parts, sep)
    ensures |Join(parts, sep)| == |parts[0]| || Join(parts, sep)[|parts[0]|] == sep
  {
  }

  /** A time field with one `:` is kept whole. */
  lemma HoursMinutesOneColon(hh: string, mm: string)
    requires ':' !in hh && ':' !in mm
    ensures HoursMinutes(hh + [':'] + mm) == hh + ":" + mm
  {
    SplitAtFirst(hh, ':', mm);
  }

  /** `parseTime`: the text before the first `T`, a space, then the first
      two `:`-separated fields of the text between the first `T` and the
      next one. Without a `T` the source throws (it splits `undefined`), so
      one is required. */
  function ParseTime(time: string): (shown: string)
    requires 'T' in time
    ensures var k := IndexOf(time, 'T'); |shown| > k && shown[..k] == time[..k] && shown[k] == ' '
  {
    SplitFirstPiece(time, 'T');
    var halves := Split(time, 'T');
    halves[0] + " " + HoursMinutes(halves[1])
  }

  /** What `parseTime` makes of `date T tail`. */
  lemma ParseTimeAtFirstT(date: string, tail: string)
    requires 'T' !in date
    ensures ParseTime(date + "T" + tail) == date + " " + HoursMinutes(Split(tail, 'T')[0])
  {
    assert date + "T" + tail == date + ['T'] + tail;
    SplitAtFirst(date, 'T', tail);
  }

  /** The text up to the next `T` after `hh : mm :`. */
  lemma UpToNextT(hh: string, mm: string, rest: string)
    requires 'T' !in hh && 'T' !in mm
    ensures Split(hh + ":" + mm + ":" + rest, 'T')[0] == hh + [':'] + (mm + [':'] + Split(rest, 'T')[0])
  {
    var head := hh + ":" + mm + ":";
    SplitHeadAppend(head, rest, 'T');
    RegroupHead(hh, mm, Split(rest, 'T')[0]);
  }

  /** Re-association of `hh : mm : p`. */
  lemma RegroupHead(hh: string, mm: string, p: string)
    ensures hh + ":" + mm + ":" + p == hh + [':'] + (mm + [':'] + p)
  {
  }

  /** The hours and minutes of `hh : mm : p`. */
  lemma HoursMinutesOf(hh: string, mm: string, p: string)
    requires ':' !in hh && ':' !in mm
    ensures HoursMinutes(hh + [':'] + (mm + [':'] + p)) == hh + ":" + mm
  {
    SplitAtFirst(hh, ':', mm + [':'] + p);
    SplitAtFirst(mm, ':', p);
  }

  /** On a timestamp `date T hh : mm : rest`, the date and the hours and
      minutes are kept and the seconds, fraction and zone are dropped. */
  lemma ParseTimeOfTimestamp(date: string, hh: string, mm: string, rest: string)
    requires 'T' !in date && 'T' !in hh && 'T' !in mm
    requires ':' !in hh && ':' !in mm
    ensures ParseTime(date + "T" + (hh + ":" + mm + ":" + rest)) == date + " " + (hh + ":" + mm)
  {
    ParseTimeAtFirstT(date, hh + ":" + mm + ":" + rest);
    UpToNextT(hh, mm, rest);
    HoursMinutesOf(hh, mm, Split(rest, 'T')[0]);
  }

  /** A time with no `:` after the `T` ends in ":undefined". */
  lemma ParseTimeWithoutMinutes(date: string, hh: string)
    requires 'T' !in date && 'T' !in hh && ':' !in hh
    ensures ParseTime(date + "T" + hh) == date + " " + hh + ":undefined"
  {
    ParseTimeAtFirstT(date, hh);
  }

  /** A timestamp without seconds, `date T hh : mm`, is shown with
      everything after the `:`, so a zone suffix stays in `mm`. */
  lemma ParseTimeWithoutSeconds(date: string, hh: string, mm: string)
    requires 'T' !in date && 'T' !in hh && 'T' !in mm
    requires ':' !in hh && ':' !in mm
    ensures ParseTime(date + "T" + (hh + ":" + mm)) == date + " " + (hh + ":" + mm)
  {
    ParseTimeAtFirstT(date, hh + ":" + mm);
    assert hh + ":" + mm == hh + [':'] + mm;
    HoursMinutesOneColon(hh, mm);
  }

  /** "2024-01-01T10:00Z" keeps its zone: it is shown as
      "2024-01-01 10:00Z". */
  lemma ParseTimeKeepsZoneExample()
    ensures ParseTime("2024-01-01T10:00Z") == "2024-01-01 10:00Z"
  {
    var date, hh, mm := "2024-01-01", "10", "00Z";
    assert date + "T" + (hh + ":" + mm) == "2024-01-01T10:00Z";
    assert date + " " + (hh + ":" + mm) == "2024-01-01 10:00Z";
    ParseTimeWithoutSeconds(date, hh, mm);
  }

  /** The timestamp the backend produces, as the pane shows it. */
  lemma ParseTimeExample()
    ensures ParseTime("2024-01-01T10:00:00Z") == "2024-01-01 10:00"
  {
    var date, hh, mm, rest := "2024-01-01", "10", "00", "00Z";
    assert date + "T" + (hh + ":" + mm + ":" + rest) == "2024-01-01T10:00:00Z";
    assert date + " " + (hh + ":" + mm) == "2024-01-01 10:00";
    ParseTimeOfTimestamp(date, hh, mm, rest);
  }

  /** Which side of the thread a bubble sits on. */
  datatype Side = ChatStart | ChatEnd

  /** One rendered message: side, avatar URL, timestamp, and the image and
      text parts shown (each only when non-empty). */
  datatype Bubble = Bubble(
    side: Side,
    avatar: string,
    time: string,
    image: Option<string>,
    text: Option<string>)

  /** `pic || '/avatar.png'`. */
  function AvatarOr(pic: string): (url: string)
    ensures url != ""
    ensures url == pic || (pic == "" && url == DefaultAvatar)
  {
    if pic == "" then DefaultAvatar else pic
  }

  /** A non-empty string, as JSX renders `s && <…>`. */
  function Shown(s: string): (part: Option<string>)
    ensures part.Some? <==> s != ""
    ensures part.Some? ==> part.value == s
  {
    if s == "" then None else Some(s)
  }

  /** One message as the thread renders it. It sits at the end exactly when
      the signed-in user sent it; its avatar is that user's picture for their
      own messages and the selected contact's otherwise, each falling back to
      the default avatar when empty or absent; so it is never empty. */
  function RenderMessage(m: Message, authUser: Option<User>, selected: Option<User>): (b: Bubble)
    requires 'T' in m.createdAt
    ensures b.side == ChatEnd <==> authUser.Some? && m.senderId == authUser.value.id
    ensures b.avatar != ""
    ensures b.side == ChatEnd ==> b.avatar == AvatarOr(authUser.value.profilePic)
    ensures b.side == ChatStart && selected.Some? ==> b.avatar == AvatarOr(selected.value.profilePic)
    ensures b.side == ChatStart && selected.None? ==> b.avatar == DefaultAvatar
    ensures b.time == ParseTime(m.createdAt)
    ensures b.image == Shown(m.image) && b.text == Shown(m.text)
  {
    var own := authUser.Some? && m.senderId == authUser.value.id;
    Bubble(
      if own then ChatEnd else ChatStart,
      if own then AvatarOr(authUser.value.profilePic)
      else AvatarOr(if selected.Some? then selected.value.profilePic else ""),
      ParseTime(m.createdAt),
      Shown(m.image),
      Shown(m.text))
  }

  /** `messages.map(...)`: one bubble per message, in order. */
  function RenderThread(messages: seq<Message>, authUser: Option<User>, selected: Option<User>): (bubbles: seq<Bubble>)
    requires forall i :: 0 <= i < |messages| ==> 'T' in messages[i].createdAt
    ensures |bubbles| == |messages|
    ensures forall i :: 0 <= i < |messages| ==> bubbles[i] == RenderMessage(messages[i], authUser, selected)
  {
    seq(|messages|, i requires 0 <= i < |messages| => RenderMessage(messages[i], authUser, selected))
  }

  /** What the pane renders between its header and the composer. */
  datatype Pane = Skeleton | Thread(bubbles: seq<Bubble>)

  /** The skeleton whenever the history is loading, the thread otherwise. */
  function RenderPane(isMessagesLoading: bool, messages: seq<Message>, authUser: Option<User>, selected: Option<User>): (p: Pane)
    requires !isMessagesLoading ==> forall i :: 0 <= i < |messages| ==> 'T' in messages[i].createdAt
    ensures p.Skeleton? <==> isMessagesLoading
    ensures p.Thread? ==> p.bubbles == RenderThread(messages, authUser, selected)
  {
    if isMessagesLoading then Skeleton else Thread(RenderThread(messages, authUser, selected))
  }

  /** The selection effect: without a selected contact it does nothing and
      leaves no cleanup. Otherwise it starts fetching that contact's
      history (not awaited), registers the `newMessage` handler, and returns
      a cleanup that unsubscribes; the history requested is the selected
      contact's, and when the fetch settles the history is replaced as
      `getMessages` does. */
  method SelectionEffect(chat: ChatStore, auth: AuthStore, history: Response<seq<Message>>)
    returns (hasCleanup: bool, requested: string)
    modifies chat, auth.socket
    ensures hasCleanup == old(chat.selectedUser).Some?
    ensures hasCleanup ==> requested == old(chat.selectedUser).value.id
    ensures !hasCleanup ==> unchanged(chat) && (auth.socket != null ==> unchanged(auth.socket))
    ensures hasCleanup ==> chat.HistoryFetched(history)
    ensures hasCleanup && auth.socket != null ==>
      auth.socket.messageListeners == old(auth.socket.messageListeners) + [chat.selectedUser.value]
    ensures auth.socket != null ==>
      auth.socket.connected == old(auth.socket.connected)
      && auth.socket.listensOnlineUsers == old(auth.socket.listensOnlineUsers)
  {
    if chat.selectedUser.None? {
      return false, "";
    }
    requested := chat.StartGetMessages(chat.selectedUser.value.id);
    var registered := chat.SubscribeToMessages(auth);
    var st := chat.FinishGetMessages(history);
    hasCleanup := true;
  }

  /** The effect's cleanup. */
  method SelectionCleanup(chat: ChatStore, auth: AuthStore)
    modifies auth.socket
    ensures auth.socket != null ==> auth.socket.messageListeners == []
    ensures auth.socket != null ==>
      auth.socket.connected == old(auth.socket.connected)
      && auth.socket.listensOnlineUsers == old(auth.socket.listensOnlineUsers)
  {
    chat.UnsubscribeFromMessages(auth);
  }
}
