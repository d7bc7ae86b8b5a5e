/** A run of the relay from its start in which two overlapping drains of one user send two delivery
    receipts for one message. */
module RelayOverlap {
  import opened Models
  import opened Runs
  import opened OfflineQueue
  import opened Routing
  import opened RelayProtocol
  import RelayGuarantees

  ghost predicate IsStep(s: State, a: Action, next: State) {
    Enabled(s, a) && next == Next(s, a)
  }

  lemma AsRun(run: seq<State>, actions: seq<Action>)
    ensures IsRun(run, actions) <==> IsRunOf(IsStep, run, actions)
  {
    hide Next, Enabled;
    if IsRunOf(IsStep, run, actions) {
      forall i | 0 <= i < |actions| ensures Enabled(run[i], actions[i]) && run[i + 1] == Next(run[i], actions[i]) {
        assert IsStep(run[i], actions[i], run[i + 1]);
      }
    }
  }

  /** A connection without queued rows starts. */
  lemma Starts(sender: User) returns (run: seq<State>)
    ensures IsRun(run, [Open(1, sender, true), Select(1), Delete(1), Start(1)]) && Initial(run[0])
    ensures run[4] == State(map[1 := Conn(sender, true, Running(false, Idle))], [], [], map[1 := sender], [], [], {},
            {}, {}, {}, {}, [])
  {
    var s0 := State(map[], [], [], map[], [], [], {}, {}, {}, {}, {}, []);
    var s1 := s0.(conns := map[1 := Conn(sender, true, Fresh)], users := map[1 := sender]);
    var s2 := s1.(conns := map[1 := Conn(sender, true, Selected([], 0))]);
    var s3 := s1.(conns := map[1 := Conn(sender, true, HandingOff([]))]);
    var s4 := s1.(conns := map[1 := Conn(sender, true, Running(false, Idle))]);
    assert Next(s1, Select(1)) == s2 && Next(s2, Delete(1)) == s3 && Next(s3, Start(1)) == s4;
    run := [s0, s1, s2, s3, s4];
  }

  function TextItem(sender: User, to: User, id: MessageId, content: string): Item {
    Item(1, sender, InText(to, id, content), Routed(true, true, to, id, Text(sender, id, content)))
  }

  /** After a text to a user without connections: it is in the stream and in the queue. */
  function Queued(sender: User, to: User, id: MessageId, content: string): State {
    var row := Row(0, to, Some(0));
    State(map[1 := Conn(sender, true, Running(false, Idle))], [row],
          [NewMessage(id, sender, to, "text", Some(content), None, None, None)], map[1 := sender],
          [TextItem(sender, to, id, content)], [row], {}, {}, {0}, {}, {0}, [])
  }

  /** The sender's connection holds `work`; the text is accepted, and in the stream once it is logged. */
  function InHand(sender: User, to: User, id: MessageId, content: string, work: Work, logged: bool): State {
    State(map[1 := Conn(sender, true, Running(false, work))], [],
          if logged then [NewMessage(id, sender, to, "text", Some(content), None, None, None)] else [],
          map[1 := sender],
          [TextItem(sender, to, id, content)], [], {}, {}, {}, {}, {}, [])
  }

  lemma AcceptsText(s: State, sender: User, to: User, id: MessageId, content: string)
    requires s == State(map[1 := Conn(sender, true, Running(false, Idle))], [], [], map[1 := sender], [], [], {}, {},
             {}, {}, {}, [])
    ensures Enabled(s, Accept(1, InText(to, id, content)))
    ensures Next(s, Accept(1, InText(to, id, content))) == InHand(sender, to, id, content, Accepted(0), false)
  {
  }

  lemma LogsText(sender: User, to: User, id: MessageId, content: string)
    ensures var s := InHand(sender, to, id, content, Accepted(0), false);
            Enabled(s, Log(1)) && Next(s, Log(1)) == InHand(sender, to, id, content, Logged(0), true)
  {
  }

  lemma MissesText(sender: User, to: User, id: MessageId, content: string)
    ensures var s := InHand(sender, to, id, content, Logged(0), true);
            Enabled(s, Publish(1)) && Next(s, Publish(1)) == InHand(sender, to, id, content, Missed(0), true)
  {
    assert Subscribers(InHand(sender, to, id, content, Logged(0), true), to) == {};
  }

  lemma SavesText(sender: User, to: User, id: MessageId, content: string)
    ensures var s := InHand(sender, to, id, content, Missed(0), true);
            Enabled(s, Save(1)) && Next(s, Save(1)) == Queued(sender, to, id, content)
  {
  }

  lemma QueuesText(s: State, sender: User, to: User, id: MessageId, content: string) returns (run: seq<State>)
    requires s == State(map[1 := Conn(sender, true, Running(false, Idle))], [], [], map[1 := sender], [], [], {}, {},
             {}, {}, {}, [])
    ensures IsRun(run, [Accept(1, InText(to, id, content)), Log(1), Publish(1), Save(1)]) && run[0] == s
    ensures run[4] == Queued(sender, to, id, content)
  {
    hide Next, Enabled, InHand, Queued;
    AcceptsText(s, sender, to, id, content);
    LogsText(sender, to, id, content);
    MissesText(sender, to, id, content);
    SavesText(sender, to, id, content);
    run := [s, InHand(sender, to, id, content, Accepted(0), false), InHand(sender, to, id, content, Logged(0), true),
            InHand(sender, to, id, content, Missed(0), true), Queued(sender, to, id, content)];
  }

  lemma OneRow(row: Row<nat>)
    requires row.payload == Some(0)
    ensures For([row], row.to) == [row] && Decoded([row]) == [0] && DecodableIds([row]) == {row.id}
    ensures Without([row], {row.id}) == [] && Without<nat>([], {row.id}) == []
  {
    assert [row][..0] == [] && row in [row];
  }

  /** The recipient's two connections in the given stages, `queue` and `returned` as given. */
  function Both(s: State, to: User, first: Stage, second: Stage): State {
    s.(conns := s.conns[2 := Conn(to, true, first)][3 := Conn(to, true, second)], users := s.users[2 := to][3 := to])
  }

  lemma BothSelect(s: State, to: User, row: Row<nat>) returns (run: seq<State>)
    requires 2 !in s.users && 3 !in s.users && s.queue == [row] && row.to == to && row.payload == Some(0)
             && |s.saved| == 1
    ensures IsRun(run, [Open(2, to, true), Open(3, to, true), Select(2), Select(3)]) && run[0] == s
    ensures run[4] == Both(s, to, Selected([row], 1), Selected([row], 1))
  {
    hide For, Without, Decoded, DecodableIds;
    OneRow(row);
    var s1 := Next(s, Open(2, to, true));
    var s2 := Next(s1, Open(3, to, true));
    var s3 := Next(s2, Select(2));
    assert s3 == Both(s, to, Selected([row], 1), Fresh);
    var s4 := Next(s3, Select(3));
    assert s4 == Both(s, to, Selected([row], 1), Selected([row], 1));
    run := [s, s1, s2, s3, s4];
  }

  lemma BothDelete(s: State, t: State, to: User, row: Row<nat>) returns (run: seq<State>)
    requires t == Both(s, to, Selected([row], 1), Selected([row], 1)) && s.queue == [row] && row.payload == Some(0)
    ensures IsRun(run, [Delete(2), Delete(3)]) && run[0] == t
    ensures run[2] == Both(s, to, HandingOff([0]), HandingOff([0])).(queue := [],
            returned := s.returned + {(2, row.id), (3, row.id)})
  {
    hide For, Without, Decoded, DecodableIds;
    OneRow(row);
    var s1 := Next(t, Delete(2));
    assert s1 == Both(s, to, HandingOff([0]), Selected([row], 1)).(queue := [], returned := s.returned + {(2, row.id)});
    var s2 := Next(s1, Delete(3));
    assert s2.conns == Both(s, to, HandingOff([0]), HandingOff([0])).conns;
    run := [t, s1, s2];
  }

  lemma BothHandOff(s: State, c: Conn, item: Item) returns (run: seq<State>)
    requires s.accepted == [item] && 2 in s.conns && 3 in s.conns && s.conns[2] == c && s.conns[3] == c
             && c.stage == HandingOff([0])
    requires item.routed.outgoing.Text?
    ensures IsRun(run, [HandOff(2), HandOff(3)]) && run[0] == s
    ensures var e := Issued(0, item.routed.outgoing.from, DeliveryReceipt(c.user, item.routed.outgoing.id));
            run[2].receipts == s.receipts + [e] + [e]
  {
    var s1 := Next(s, HandOff(2));
    run := [s, s1, Next(s1, HandOff(3))];
  }

  /** A run that ends with two delivery receipts for one message. */
  lemma ReceiptedTwice(sender: User, to: User, id: MessageId, content: string)
      returns (run: seq<State>, actions: seq<Action>)
    ensures IsRun(run, actions) && Initial(run[0])
    ensures RelayGuarantees.Numbers(run[|actions|].receipts) == [0, 0]
    ensures run[|actions|].receipts
            == [Issued(0, sender, DeliveryReceipt(to, id)), Issued(0, sender, DeliveryReceipt(to, id))]
  {
    hide Next, Enabled, Initial;
    var row := Row(0, to, Some(0));
    var a := Starts(sender);
    var b := QueuesText(a[4], sender, to, id, content);
    var c := BothSelect(b[4], to, row);
    var d := BothDelete(b[4], c[4], to, row);
    var e := BothHandOff(d[2], Conn(to, true, HandingOff([0])), TextItem(sender, to, id, content));
    var starts := [Open(1, sender, true), Select(1), Delete(1), Start(1)];
    var sends := [Accept(1, InText(to, id, content)), Log(1), Publish(1), Save(1)];
    var selects := [Open(2, to, true), Open(3, to, true), Select(2), Select(3)];
    var deletes, handOffs := [Delete(2), Delete(3)], [HandOff(2), HandOff(3)];
    AsRun(a, starts);
    AsRun(b, sends);
    AsRun(c, selects);
    AsRun(d, deletes);
    AsRun(e, handOffs);
    hide IsStep, IsRun;
    run := Chained(IsStep, a, starts, b, sends);
    run := Chained(IsStep, run, starts + sends, c, selects);
    run := Chained(IsStep, run, starts + sends + selects, d, deletes);
    run := Chained(IsStep, run, starts + sends + selects + deletes, e, handOffs);
    actions := starts + sends + selects + deletes + handOffs;
    AsRun(run, actions);
  }
}
