/**
 * What the host reads back from the reports that answer a message at once: its nonce and channel
 * after INIT, its own bytes after PING, and for every message that starts no request one message.
 */
module HostAnswers {
  import opened Bytes
  import opened CtapHid
  import opened Daemon
  import EndToEnd

  /** The host puts exactly this message together from its reports, whatever it has stored before. */
  lemma OneMessageIsRead(partials: map<Channel, Partial>, m: Message)
    requires AllOpen(partials) && m.command >= 0x80 && m.command != CANCEL_CMD && |m.data| <= MAX_MESSAGE
    ensures var reports := PaddedAll(Packets(m.channel, m.command, m.data));
            ForChannel(ReceiveAll(partials, EndToEnd.Heard(reports)), m.channel)
            == [m]
  {
    hide BigEndian, ChannelOf, Feed;
    var packets := Packets(m.channel, m.command, m.data);
    var arrivals := EndToEnd.Heard(PaddedAll(packets));
    var rest := m.data[Min(|m.data|, FIRST)..];
    EndToEnd.ContinuationsAreShort(m.channel, rest, 0);
    ContinuationsNameTheChannel(m.channel, rest, 0);
    forall i | 0 <= i < |arrivals|
      ensures |arrivals[i].report| >= 5 && ChannelOf(arrivals[i].report) == m.channel
      ensures Carries(arrivals[i].report, packets[i])
    {
      assert packets[i][..4] == BigEndian(m.channel, 4) && 5 <= |packets[i]| <= REPORT;
      CarriedChannel(arrivals[i].report, packets[i], m.channel);
    }
    EndToEnd.AllOnChannel(arrivals, m.channel);
    ReassemblyUndoesFragmentation(partials, arrivals, m);
  }

  /** What the host reads of the reports that were written between two moments. */
  function ReadSince(partials: map<Channel, Partial>, d: Desk, e: Desk, c: Channel): seq<Message>
    requires AllOpen(partials) && |d.reports| <= |e.reports|
  {
    ForChannel(ReceiveAll(partials, EndToEnd.Heard(e.reports[|d.reports|..])), c)
  }

  lemma ReplyIsRead(partials: map<Channel, Partial>, d: Desk, e: Desk, m: Message)
    requires AllOpen(partials) && m.command >= 0x80 && m.command != CANCEL_CMD && |m.data| <= MAX_MESSAGE
    requires e.reports == d.reports + PaddedAll(Packets(m.channel, m.command, m.data))
    ensures ReadSince(partials, d, e, m.channel) == [m]
  {
    hide Packets, PaddedAll, ReceiveAll, ForChannel;
    assert e.reports[|d.reports|..] == PaddedAll(Packets(m.channel, m.command, m.data));
    OneMessageIsRead(partials, m);
  }

  /**
   * INIT: the host reads one INIT message whose first eight bytes are its nonce and whose next four
   * are a channel it can use: a new one after INIT on broadcast, otherwise its own.
   */
  lemma InitIsAnswered(partials: map<Channel, Partial>, m: Message, anyLink: bool, d: Desk, e: Desk)
    requires AllOpen(partials) && m.command == INIT && |m.data| == 8 && Effect(m, anyLink, d, e)
    ensures |d.reports| <= |e.reports| && e == d.(reports := e.reports)
    ensures var read := ReadSince(partials, d, e, m.channel);
            && |read| == 1 && read[0].command == INIT && |read[0].data| == 17 && read[0].data[..8] == m.data
            && var given := Number(read[0].data[8..12]);
               if m.channel == BROADCAST then given != 0 && given != BROADCAST else given == m.channel
  {
    hide Packets, PaddedAll, ReadSince, BigEndian, Number;
    var given: Channel :|
      && (if m.channel == BROADCAST then given != 0 && given != BROADCAST else given == m.channel)
      && e == d.(reports := d.reports + PaddedAll(Packets(m.channel, INIT, InitReply(m.data, given))));
    var data := InitReply(m.data, given);
    Pow256Values();
    NumberOfBigEndian(given, 4);
    assert data[..8] == m.data && data[8..12] == BigEndian(given, 4);
    ReplyIsRead(partials, d, e, Message(m.channel, INIT, data));
  }

  /** What a message that starts no request is answered with, case by case. */
  predicate AnswerFor(m: Message, anyLink: bool, free: bool, answer: Message) {
    && answer.channel == m.channel
    && if m.command == INIT then answer.command == ERROR && answer.data == [ERR_INVALID_LEN]
       else if m.channel in {0, BROADCAST} then answer.command == ERROR && answer.data == [ERR_INVALID_CHANNEL]
       else if m.command == PING_CMD then answer == m
       else if m.command == WINK then answer.command == WINK && answer.data == []
       else if m.command != CBOR then answer.command == ERROR && answer.data == [ERR_INVALID_CMD]
       else if m.data == [] || !anyLink then answer.command == CBOR && answer.data == [CTAP2_ERR_OTHER]
       else !free && answer.command == ERROR && answer.data == [ERR_CHANNEL_BUSY]
  }

  /**
   * Every other message either is a CBOR message with bytes on a usable channel that takes the free
   * slot while a phone is connected, or the host reads exactly one answer to it; a PING comes back
   * as it was.
   */
  lemma MessagesAreAnswered(partials: map<Channel, Partial>, m: Message, anyLink: bool, d: Desk, e: Desk)
    requires AllOpen(partials) && |m.data| <= MAX_MESSAGE && !(m.command == INIT && |m.data| == 8)
    requires Effect(m, anyLink, d, e)
    ensures |d.reports| <= |e.reports|
    ensures
      if m.command == CBOR && m.channel != 0 && m.channel != BROADCAST && m.data != [] && anyLink && d.busy == null then
        && e.reports == d.reports && e.busy != null && e.busy.channel == m.channel
        && e.spawned == d.spawned + [(e.busy, m.data)]
      else
        var read := ReadSince(partials, d, e, m.channel);
        && e.busy == d.busy && e.spawned == d.spawned
        && |read| == 1 && AnswerFor(m, anyLink, d.busy == null, read[0])
  {
    hide Packets, PaddedAll, ReadSince;
    match AnswerAtOnce(m, anyLink, d.busy == null)
    case Some((command, data)) => ReplyIsRead(partials, d, e, Message(m.channel, command, data));
    case None =>
  }
}
