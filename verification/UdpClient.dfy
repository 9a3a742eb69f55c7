// The UDP client's retry loops: connect, and the announce loop with its single cookie refresh.
//
// The network is a script. Each pass of a retry loop takes the next round of it: whether the wait before
// the attempt saw a cancellation, whether the write succeeded, and the datagrams that arrive before the
// read deadline. Each dial takes the next entry of the dials.
module UdpClient {
  import opened Types
  import opened Wire
  import opened Addresses
  import opened UdpRequest
  import opened UdpReply

  const CONNECT_BUFFER := 2048

  datatype Round = Round(canceled: bool, written: bool, transactionID: nat, datagrams: seq<Bytes>)

  // A dial fails, or gives the transaction ID that connect generates for all its attempts.
  datatype Script = Script(rounds: nat -> Round, dials: nat -> Option<nat>)

  // One announce packet: the connection ID and the transaction ID it carries.
  datatype Sent = Sent(connectionID: nat, transactionID: nat)

  // How far into the script a client is, and the announce packets it has written or tried to write.
  datatype Progress = Progress(rounds: nat, dials: nat, sent: seq<Sent>)

  datatype Failure =
    | Canceled
    | DialFailed
    | WriteFailed
    | ReadFailed
    | TooShort(size: nat)
    | UnexpectedAction(action: nat)
    | TrackerError(message: Bytes)
    | ReconnectFailed(message: Bytes, cause: Failure)

  // What one attempt comes to. Only Retry lets the loop go on, and not on its last attempt.
  datatype Verdict =
    | Accept(packet: Bytes)
    | Refused(message: Bytes)
    | Fatal(failure: Failure)
    | Retry(failure: Failure)

  predicate Matches(packet: Bytes, transactionID: nat) {
    |packet| >= 8 && Value(packet[4..8]) == transactionID
  }

  // readUDPTrackerResponse: the first datagram with this transaction ID, as far as the buffer holds it.
  function FirstMatch(datagrams: seq<Bytes>, transactionID: nat, buffer: nat): Option<Bytes> {
    if datagrams == [] then None
    else if Matches(Cut(datagrams[0], buffer), transactionID) then Some(Cut(datagrams[0], buffer))
    else FirstMatch(datagrams[1..], transactionID, buffer)
  }

  lemma {:induction false} FirstMatchMatches(datagrams: seq<Bytes>, transactionID: nat, buffer: nat)
    ensures var p := FirstMatch(datagrams, transactionID, buffer);
            p.Some? ==> Matches(p.value, transactionID) && exists d :: d in datagrams && p.value == Cut(d, buffer)
  {
    if datagrams != [] && !Matches(Cut(datagrams[0], buffer), transactionID) {
      FirstMatchMatches(datagrams[1..], transactionID, buffer);
    }
  }

  // Of the datagrams that carry the transaction ID in their bytes 4 to 8, and are 8 bytes long or more, the
  // first is read, cut to the buffer; reading fails exactly when there is none.
  lemma {:induction false} FirstIsRead(datagrams: seq<Bytes>, transactionID: nat, buffer: nat, k: nat)
    requires k < |datagrams| && |datagrams[k]| >= 8 && datagrams[k][4..8] == BE(transactionID, 4)
    requires transactionID < Range(4) && buffer >= 8
    requires forall i :: 0 <= i < k ==> |datagrams[i]| < 8 || datagrams[i][4..8] != BE(transactionID, 4)
    ensures var d := datagrams[k];
            FirstMatch(datagrams, transactionID, buffer) == Some(if |d| <= buffer then d else d[..buffer])
  {
    hide BE, Value, Range, Matches;
    MatchesIs(datagrams[0], transactionID, buffer);
    if k > 0 {
      FirstIsRead(datagrams[1..], transactionID, buffer, k - 1);
    }
  }

  lemma {:induction false} NothingIsRead(datagrams: seq<Bytes>, transactionID: nat, buffer: nat)
    requires transactionID < Range(4) && buffer >= 8
    requires forall d :: d in datagrams ==> |d| < 8 || d[4..8] != BE(transactionID, 4)
    ensures FirstMatch(datagrams, transactionID, buffer) == None
  {
    hide BE, Value, Range, Matches;
    if datagrams != [] {
      MatchesIs(datagrams[0], transactionID, buffer);
      NothingIsRead(datagrams[1..], transactionID, buffer);
    }
  }

  lemma MatchesIs(d: Bytes, transactionID: nat, buffer: nat)
    requires transactionID < Range(4) && buffer >= 8
    ensures Matches(Cut(d, buffer), transactionID) <==> |d| >= 8 && d[4..8] == BE(transactionID, 4)
  {
    hide BE, Value, Range;
    if |d| >= 8 {
      assert Cut(d, buffer)[4..8] == d[4..8];
      BEOfValue(d[4..8]);
      ValueOfBE(transactionID, 4);
    }
  }

  // Stale and short datagrams in front do not matter.
  lemma {:induction false} FirstMatchSkips(stale: seq<Bytes>, rest: seq<Bytes>, transactionID: nat, buffer: nat)
    requires forall i :: 0 <= i < |stale| ==> !Matches(Cut(stale[i], buffer), transactionID)
    ensures FirstMatch(stale + rest, transactionID, buffer) == FirstMatch(rest, transactionID, buffer)
  {
    if stale == [] {
      assert stale + rest == rest;
    } else {
      assert (stale + rest)[1..] == stale[1..] + rest;
      FirstMatchSkips(stale[1..], rest, transactionID, buffer);
    }
  }

  function Read(r: Round, transactionID: nat, buffer: nat): Option<Bytes> {
    FirstMatch(r.datagrams, transactionID, buffer)
  }

  function ConnectVerdict(r: Round, transactionID: nat): Verdict {
    if r.canceled then Fatal(Canceled)
    else if !r.written then Retry(WriteFailed)
    else
      var read := Read(r, transactionID, CONNECT_BUFFER);
      if read.None? || |read.value| < 8 then Retry(ReadFailed)
      else
        var packet, action := read.value, Value(read.value[..4]);
        if action == ACTION_ERROR then Fatal(TrackerError(packet[8..]))
        else if |packet| < 16 then Retry(TooShort(|packet|))
        else if action != ACTION_CONNECT then Retry(UnexpectedAction(action))
        else Accept(packet)
  }

  function AnnounceVerdict(r: Round): Verdict {
    if r.canceled then Fatal(Canceled)
    else if !r.written then Retry(WriteFailed)
    else
      var read := Read(r, r.transactionID, READ_BUFFER);
      if read.None? || |read.value| < 8 then Retry(ReadFailed)
      else
        var packet, action := read.value, Value(read.value[..4]);
        if action == ACTION_ERROR then Refused(packet[8..])
        else if |packet| < REPLY_HEADER then Retry(TooShort(|packet|))
        else if action != ACTION_ANNOUNCE then Retry(UnexpectedAction(action))
        else Accept(packet)
  }

  // connect

  datatype Connection = Connected(id: nat) | NotConnected(why: Failure)

  function ConnectFrom(s: Script, transactionID: nat, maxRetries: nat, retry: nat, at: Progress): (Connection, Progress)
    requires retry < maxRetries
    decreases maxRetries - retry
  {
    var at' := at.(rounds := at.rounds + 1);
    match ConnectVerdict(s.rounds(at.rounds), transactionID)
    case Accept(packet) => (Connected(if |packet| >= 16 then Value(packet[8..16]) else 0), at')
    case Refused(message) => (NotConnected(TrackerError(message)), at')
    case Fatal(failure) => (NotConnected(failure), at')
    case Retry(failure) =>
      if retry == maxRetries - 1 then (NotConnected(failure), at')
      else ConnectFrom(s, transactionID, maxRetries, retry + 1, at')
  }

  function Connecting(s: Script, maxRetries: nat, at: Progress): (Connection, Progress)
    requires 0 < maxRetries
  {
    var at' := at.(dials := at.dials + 1);
    var dialed := s.dials(at.dials);
    if dialed.None? then (NotConnected(DialFailed), at') else ConnectFrom(s, dialed.value, maxRetries, 0, at')
  }

  // A connection ID is read from a connect reply of at least 16 bytes to this call's transaction, in the last
  // round the call used. No call uses more than maxRetries rounds, and none writes an announce packet.
  lemma {:induction false} ConnectedByReply(s: Script, transactionID: nat, maxRetries: nat, retry: nat, at: Progress)
    requires retry < maxRetries
    ensures var (c, at') := ConnectFrom(s, transactionID, maxRetries, retry, at);
            && at.rounds < at'.rounds <= at.rounds + (maxRetries - retry)
            && at'.sent == at.sent && at'.dials == at.dials
            && (c.Connected? ==>
                  var read := Read(s.rounds(at'.rounds - 1), transactionID, CONNECT_BUFFER);
                  && read.Some? && |read.value| >= 16 && Matches(read.value, transactionID)
                  && Value(read.value[..4]) == ACTION_CONNECT && c.id == Value(read.value[8..16]))
    decreases maxRetries - retry
  {
    hide Matches, Value, FirstMatch;
    var r := s.rounds(at.rounds);
    FirstMatchMatches(r.datagrams, transactionID, CONNECT_BUFFER);
    if ConnectVerdict(r, transactionID).Retry? && retry != maxRetries - 1 {
      ConnectedByReply(s, transactionID, maxRetries, retry + 1, at.(rounds := at.rounds + 1));
    }
  }

  // The announce loop

  // The client's setting: how often it retries, which tracker errors it takes for a stale cookie, and
  // how it reads addresses.
  datatype Client = Client(net: Net, isIPv6: bool, maxRetries: nat, staleCookie: Bytes -> bool)

  // The loop's variables. `cached` is the connection ID the client keeps for this forwarder.
  datatype Loop = Loop(retry: nat, refreshed: bool, connectionID: nat, cached: Option<nat>, at: Progress)

  datatype Outcome = Success(response: Response, size: nat) | Failed(why: Failure)

  function Sending(l: Loop, r: Round): Loop {
    l.(at := Progress(l.at.rounds + 1, l.at.dials,
                      if r.canceled then l.at.sent else l.at.sent + [Sent(l.connectionID, r.transactionID)]))
  }

  function Announcing(s: Script, c: Client, l: Loop): (Outcome, Loop)
    requires l.retry < c.maxRetries
    decreases if l.refreshed then 0 else 1, c.maxRetries - l.retry
  {
    var r := s.rounds(l.at.rounds);
    var l' := Sending(l, r);
    match AnnounceVerdict(r)
    case Accept(packet) =>
      (if |packet| >= REPLY_HEADER then Success(Parsed(c.net, packet, c.isIPv6), |packet|) else Failed(TooShort(|packet|)), l')
    case Fatal(failure) => (Failed(failure), l')
    case Retry(failure) =>
      if l.retry == c.maxRetries - 1 then (Failed(failure), l') else Announcing(s, c, l'.(retry := l.retry + 1))
    case Refused(message) =>
      if l.refreshed || !c.staleCookie(message) then (Failed(TrackerError(message)), l'.(cached := None))
      else
        var (connection, at) := Connecting(s, c.maxRetries, l'.at);
        if connection.NotConnected? then
          (Failed(ReconnectFailed(message, connection.why)), l'.(cached := None, refreshed := true, at := at))
        else
          Announcing(s, c, l'.(refreshed := true, connectionID := connection.id, cached := Some(connection.id), at := at))
  }

  function Refreshes(l: Loop): nat {
    if l.refreshed then 1 else 0
  }

  lemma ConnectingSendsNothing(s: Script, maxRetries: nat, at: Progress)
    requires 0 < maxRetries
    ensures var (c, at') := Connecting(s, maxRetries, at);
            at'.sent == at.sent && at'.dials == at.dials + 1 && at'.rounds >= at.rounds
  {
    hide ConnectFrom;
    if s.dials(at.dials).Some? {
      ConnectedByReply(s, s.dials(at.dials).value, maxRetries, 0, at.(dials := at.dials + 1));
    }
  }

  // The announce loop writes at most one packet per remaining attempt, and one more if it refreshes the
  // connection ID, which it does at most once: from the start, at most maxRetries + 1 packets.
  lemma {:induction false} AnnounceBounds(s: Script, c: Client, l: Loop)
    requires l.retry < c.maxRetries
    ensures var (_, l') := Announcing(s, c, l);
            && l.at.sent <= l'.at.sent
            && |l'.at.sent| - |l.at.sent| <= c.maxRetries - l.retry + Refreshes(l') - Refreshes(l)
            && l'.at.dials - l.at.dials == Refreshes(l') - Refreshes(l) && Refreshes(l) <= Refreshes(l')
    decreases if l.refreshed then 0 else 1, c.maxRetries - l.retry
  {
    hide AnnounceVerdict, Connecting, Parsed;
    var r := s.rounds(l.at.rounds);
    var l1 := Sending(l, r);
    match AnnounceVerdict(r)
    case Retry(failure) =>
      if l.retry != c.maxRetries - 1 {
        AnnounceBounds(s, c, l1.(retry := l.retry + 1));
      }
    case Refused(message) =>
      if !l.refreshed && c.staleCookie(message) {
        ConnectingSendsNothing(s, c.maxRetries, l1.at);
        var (connection, at) := Connecting(s, c.maxRetries, l1.at);
        if connection.Connected? {
          AnnounceBounds(s, c, l1.(refreshed := true, connectionID := connection.id, cached := Some(connection.id), at := at));
        }
      }
    case _ =>
  }

  // A success comes from a packet with the transaction ID of the last announce written, action announce
  // and at least 20 bytes; the client then keeps the connection ID that announce carried, if it refreshed it.
  lemma {:induction false} AnnouncedByReply(s: Script, c: Client, l: Loop)
    requires l.retry < c.maxRetries
    ensures var (outcome, l') := Announcing(s, c, l);
            outcome.Success? ==>
              && l'.at.rounds > 0 &&
              var r := s.rounds(l'.at.rounds - 1);
              var read := Read(r, r.transactionID, READ_BUFFER);
              && read.Some? && |read.value| >= REPLY_HEADER && Matches(read.value, r.transactionID)
              && Value(read.value[..4]) == ACTION_ANNOUNCE
              && outcome == Success(Parsed(c.net, read.value, c.isIPv6), |read.value|)
              && l'.at.sent != [] && l'.at.sent[|l'.at.sent| - 1] == Sent(l'.connectionID, r.transactionID)
    decreases if l.refreshed then 0 else 1, c.maxRetries - l.retry
  {
    hide FirstMatch, Matches, Value, Connecting, Parsed;
    var r := s.rounds(l.at.rounds);
    var l1 := Sending(l, r);
    FirstMatchMatches(r.datagrams, r.transactionID, READ_BUFFER);
    match AnnounceVerdict(r)
    case Retry(failure) =>
      if l.retry != c.maxRetries - 1 {
        AnnouncedByReply(s, c, l1.(retry := l.retry + 1));
      }
    case Refused(message) =>
      if !l.refreshed && c.staleCookie(message) {
        var (connection, at) := Connecting(s, c.maxRetries, l1.at);
        if connection.Connected? {
          AnnouncedByReply(s, c, l1.(refreshed := true, connectionID := connection.id, cached := Some(connection.id), at := at));
        }
      }
    case _ =>
  }

  // The connection ID kept afterwards: none after a tracker error, the refreshed one after a refresh, else
  // whatever was kept before.
  lemma {:induction false} KeptConnection(s: Script, c: Client, l: Loop)
    requires l.retry < c.maxRetries && (l.refreshed ==> l.cached == Some(l.connectionID))
    ensures var (outcome, l') := Announcing(s, c, l);
            && (l.refreshed ==> l'.refreshed)
            && l'.cached ==
               if outcome.Failed? && (outcome.why.TrackerError? || outcome.why.ReconnectFailed?) then None
               else if l'.refreshed then Some(l'.connectionID)
               else l.cached
    decreases if l.refreshed then 0 else 1, c.maxRetries - l.retry
  {
    hide Read, Value, Connecting, Parsed;
    var r := s.rounds(l.at.rounds);
    var l1 := Sending(l, r);
    match AnnounceVerdict(r)
    case Retry(failure) =>
      if l.retry != c.maxRetries - 1 {
        KeptConnection(s, c, l1.(retry := l.retry + 1));
      }
    case Refused(message) =>
      if !l.refreshed && c.staleCookie(message) {
        var (connection, at) := Connecting(s, c.maxRetries, l1.at);
        if connection.Connected? {
          KeptConnection(s, c, l1.(refreshed := true, connectionID := connection.id, cached := Some(connection.id), at := at));
        }
      }
    case _ =>
  }

  // When a call must succeed, and when it may give up

  // An attempt that decides nothing: not cancelled, and nothing written, or no matching datagram, or one that is
  // neither an error nor a long enough reply with the expected action.
  predicate Unhelpful(r: Round, transactionID: nat, buffer: nat, size: nat, action: nat) {
    var read := FirstMatch(r.datagrams, transactionID, buffer);
    && !r.canceled
    && (!r.written || read.None? ||
        (Value(read.value[..Min(4, |read.value|)]) != 3 &&
         (|read.value| < size || Value(read.value[..Min(4, |read.value|)]) != action)))
  }

  // An attempt whose first match is a reply of at least `size` bytes with the expected action.
  predicate Answered(r: Round, transactionID: nat, buffer: nat, size: nat, action: nat, packet: Bytes) {
    && !r.canceled && r.written && FirstMatch(r.datagrams, transactionID, buffer) == Some(packet)
    && |packet| >= size >= 8 && Value(packet[..4]) == action
  }

  // An attempt whose first match is an error packet.
  predicate Rejected(r: Round, transactionID: nat, buffer: nat, message: Bytes) {
    && !r.canceled && r.written
    && var read := FirstMatch(r.datagrams, transactionID, buffer);
       read.Some? && |read.value| >= 8 && Value(read.value[..4]) == 3 && read.value[8..] == message
  }

  lemma UnhelpfulRetries(r: Round)
    requires Unhelpful(r, r.transactionID, 4096, 20, 1)
    ensures AnnounceVerdict(r).Retry?
  {
    hide FirstMatch, Value;
    FirstMatchMatches(r.datagrams, r.transactionID, 4096);
  }

  lemma AnsweredAccepts(r: Round, packet: Bytes)
    requires Answered(r, r.transactionID, 4096, 20, 1, packet)
    ensures AnnounceVerdict(r) == Accept(packet)
  {
    hide FirstMatch, Value;
  }

  lemma RejectedRefuses(r: Round, message: Bytes)
    requires Rejected(r, r.transactionID, 4096, message)
    ensures AnnounceVerdict(r) == Refused(message)
  {
    hide FirstMatch, Value;
  }

  // Retries are taken: if the first attempt that decides anything is an answer, and attempts are left for it, the
  // announce succeeds with that answer, after one packet for each attempt.
  lemma {:induction false} FirstAnswerWins(s: Script, c: Client, l: Loop, k: nat, packet: Bytes)
    requires l.retry + k < c.maxRetries
    requires forall n :: l.at.rounds <= n < l.at.rounds + k ==> Unhelpful(s.rounds(n), s.rounds(n).transactionID, 4096, 20, 1)
    requires var r := s.rounds(l.at.rounds + k); Answered(r, r.transactionID, 4096, 20, 1, packet)
    ensures var (outcome, l') := Announcing(s, c, l);
            && outcome == Success(Parsed(c.net, packet, c.isIPv6), |packet|)
            && l'.at.rounds == l.at.rounds + k + 1 && |l'.at.sent| == |l.at.sent| + k + 1
            && l'.connectionID == l.connectionID && l'.cached == l.cached
    decreases k
  {
    hide Unhelpful, Answered, AnnounceVerdict, Connecting, Parsed, Sending;
    var r := s.rounds(l.at.rounds);
    if k == 0 {
      AnsweredAccepts(r, packet);
      NotCanceled(r, packet);
      OnePacket(l, r);
    } else {
      UnhelpfulRetries(r);
      UnhelpfulRuns(r);
      OnePacket(l, r);
      FirstAnswerWins(s, c, Sending(l, r).(retry := l.retry + 1), k - 1, packet);
    }
  }

  lemma NotCanceled(r: Round, packet: Bytes)
    requires Answered(r, r.transactionID, 4096, 20, 1, packet)
    ensures !r.canceled && |packet| >= 20
  {
  }

  lemma UnhelpfulRuns(r: Round)
    requires Unhelpful(r, r.transactionID, 4096, 20, 1)
    ensures !r.canceled
  {
  }

  lemma OnePacket(l: Loop, r: Round)
    requires !r.canceled
    ensures var l' := Sending(l, r);
            && l' == l.(at := l'.at) && l'.at.rounds == l.at.rounds + 1 && l'.at.dials == l.at.dials
            && l'.at.sent == l.at.sent + [Sent(l.connectionID, r.transactionID)]
  {
  }

  // Giving up for want of an answer takes every attempt: exactly as many packets as attempts were left, and one
  // more after a refresh.
  lemma {:induction false} GivingUpTakesAll(s: Script, c: Client, l: Loop)
    requires l.retry < c.maxRetries
    ensures var (outcome, l') := Announcing(s, c, l);
            outcome.Failed? && (outcome.why.WriteFailed? || outcome.why.ReadFailed? || outcome.why.TooShort? || outcome.why.UnexpectedAction?) ==>
              |l'.at.sent| - |l.at.sent| == c.maxRetries - l.retry + Refreshes(l') - Refreshes(l)
    decreases if l.refreshed then 0 else 1, c.maxRetries - l.retry
  {
    hide Read, Value, Connecting, Parsed;
    var r := s.rounds(l.at.rounds);
    var l1 := Sending(l, r);
    match AnnounceVerdict(r)
    case Retry(failure) =>
      assert !r.canceled;
      if l.retry != c.maxRetries - 1 {
        GivingUpTakesAll(s, c, l1.(retry := l.retry + 1));
      }
    case Refused(message) =>
      if !l.refreshed && c.staleCookie(message) {
        ConnectingSendsNothing(s, c.maxRetries, l1.at);
        var (connection, at) := Connecting(s, c.maxRetries, l1.at);
        if connection.Connected? {
          GivingUpTakesAll(s, c, l1.(refreshed := true, connectionID := connection.id, cached := Some(connection.id), at := at));
        }
      }
    case _ =>
  }

  // A cancellation seen before an attempt ends the call without a packet.
  lemma CancellationStops(s: Script, c: Client, l: Loop)
    requires l.retry < c.maxRetries && s.rounds(l.at.rounds).canceled
    ensures var (outcome, l') := Announcing(s, c, l); outcome == Failed(Canceled) && l'.at.sent == l.at.sent
  {
    hide Read, Value, Connecting, Parsed;
  }

  // A tracker error ends the call, and forgets the connection ID, unless it is a stale cookie and the first one.
  lemma ErrorEnds(s: Script, c: Client, l: Loop, message: Bytes)
    requires l.retry < c.maxRetries
    requires var r := s.rounds(l.at.rounds); Rejected(r, r.transactionID, 4096, message)
    requires l.refreshed || !c.staleCookie(message)
    ensures var (outcome, l') := Announcing(s, c, l); outcome == Failed(TrackerError(message)) && l'.cached == None
  {
    hide AnnounceVerdict, Rejected, Connecting, Parsed;
    RejectedRefuses(s.rounds(l.at.rounds), message);
  }

  // After a first stale cookie and a connect that succeeds, the next attempt announces with the new connection ID,
  // as attempt number `retry` again.
  lemma RefreshAnnouncesAgain(s: Script, c: Client, l: Loop, message: Bytes, id: nat, at: Progress)
    requires l.retry < c.maxRetries && !l.refreshed && c.staleCookie(message)
    requires var r := s.rounds(l.at.rounds); Rejected(r, r.transactionID, 4096, message)
    requires Connecting(s, c.maxRetries, Sending(l, s.rounds(l.at.rounds)).at) == (Connected(id), at)
    requires !s.rounds(at.rounds).canceled
    ensures var again := Loop(l.retry, true, id, Some(id), at);
            var (outcome, l') := Announcing(s, c, l);
            && (outcome, l') == Announcing(s, c, again)
            && l'.connectionID == id
            && l.at.sent + [Sent(l.connectionID, s.rounds(l.at.rounds).transactionID), Sent(id, s.rounds(at.rounds).transactionID)] <= l'.at.sent
  {
    hide AnnounceVerdict, Rejected, Connecting, Parsed, Sending;
    var r := s.rounds(l.at.rounds);
    var again := Loop(l.retry, true, id, Some(id), at);
    RejectedRefuses(r, message);
    RejectedRuns(r, message);
    OnePacket(l, r);
    ConnectingSendsNothing(s, c.maxRetries, Sending(l, r).at);
    assert Sending(l, r).(refreshed := true, connectionID := id, cached := Some(id), at := at) == again;
    FirstPacket(s, c, again);
  }

  lemma RejectedRuns(r: Round, message: Bytes)
    requires Rejected(r, r.transactionID, 4096, message)
    ensures !r.canceled
  {
  }

  // The loop's next packet carries its current connection ID, which changes no more once it was refreshed.
  lemma {:induction false} FirstPacket(s: Script, c: Client, l: Loop)
    requires l.retry < c.maxRetries && l.refreshed && !s.rounds(l.at.rounds).canceled
    ensures var (_, l') := Announcing(s, c, l);
            && l'.connectionID == l.connectionID
            && l.at.sent + [Sent(l.connectionID, s.rounds(l.at.rounds).transactionID)] <= l'.at.sent
  {
    hide AnnounceVerdict, Connecting, Parsed, Sending;
    var r := s.rounds(l.at.rounds);
    OnePacket(l, r);
    if AnnounceVerdict(r).Retry? && l.retry != c.maxRetries - 1 {
      AnnounceBounds(s, c, Sending(l, r).(retry := l.retry + 1));
      SameID(s, c, Sending(l, r).(retry := l.retry + 1));
    }
  }

  lemma {:induction false} SameID(s: Script, c: Client, l: Loop)
    requires l.retry < c.maxRetries && l.refreshed
    ensures Announcing(s, c, l).1.connectionID == l.connectionID
    decreases c.maxRetries - l.retry
  {
    hide AnnounceVerdict, Connecting, Parsed;
    var r := s.rounds(l.at.rounds);
    if AnnounceVerdict(r).Retry? && l.retry != c.maxRetries - 1 {
      SameID(s, c, Sending(l, r).(retry := l.retry + 1));
    }
  }

  // The whole recovery: stale cookie, connect answered, announce answered.
  lemma RecoversFromStaleCookie(s: Script, c: Client, l: Loop, message: Bytes, id: nat, at: Progress, k: nat, packet: Bytes)
    requires l.retry + k < c.maxRetries && !l.refreshed && c.staleCookie(message)
    requires var r := s.rounds(l.at.rounds); Rejected(r, r.transactionID, 4096, message)
    requires Connecting(s, c.maxRetries, Sending(l, s.rounds(l.at.rounds)).at) == (Connected(id), at)
    requires forall n :: at.rounds <= n < at.rounds + k ==> Unhelpful(s.rounds(n), s.rounds(n).transactionID, 4096, 20, 1)
    requires var r := s.rounds(at.rounds + k); Answered(r, r.transactionID, 4096, 20, 1, packet)
    ensures var (outcome, l') := Announcing(s, c, l);
            outcome == Success(Parsed(c.net, packet, c.isIPv6), |packet|) && l'.cached == Some(id)
  {
    hide AnnounceVerdict, Unhelpful, Rejected, Answered, Connecting, Parsed;
    RejectedRefuses(s.rounds(l.at.rounds), message);
    FirstAnswerWins(s, c, Loop(l.retry, true, id, Some(id), at), k, packet);
  }

  // connect retries likewise: the first attempt that decides anything, if it is an answer, gives the connection ID.
  lemma {:induction false} FirstConnectReplyWins(s: Script, transactionID: nat, maxRetries: nat, retry: nat, at: Progress, k: nat, packet: Bytes)
    requires retry + k < maxRetries
    requires forall n :: at.rounds <= n < at.rounds + k ==> Unhelpful(s.rounds(n), transactionID, 2048, 16, 0)
    requires Answered(s.rounds(at.rounds + k), transactionID, 2048, 16, 0, packet)
    ensures ConnectFrom(s, transactionID, maxRetries, retry, at) ==
            (Connected(Value(packet[8..16])), at.(rounds := at.rounds + k + 1))
    decreases k
  {
    hide Unhelpful, Answered, ConnectVerdict, Value;
    var r := s.rounds(at.rounds);
    if k == 0 {
      ConnectAnswered(r, transactionID, packet);
    } else {
      ConnectUnhelpful(r, transactionID);
      FirstConnectReplyWins(s, transactionID, maxRetries, retry + 1, at.(rounds := at.rounds + 1), k - 1, packet);
    }
  }

  lemma ConnectAnswered(r: Round, transactionID: nat, packet: Bytes)
    requires Answered(r, transactionID, 2048, 16, 0, packet)
    ensures ConnectVerdict(r, transactionID) == Accept(packet) && |packet| >= 16
  {
    hide FirstMatch, Value;
  }

  lemma ConnectUnhelpful(r: Round, transactionID: nat)
    requires Unhelpful(r, transactionID, 2048, 16, 0)
    ensures ConnectVerdict(r, transactionID).Retry?
  {
    hide FirstMatch, Value;
    FirstMatchMatches(r.datagrams, transactionID, 2048);
  }

  // connect gives up for want of an answer only after all its attempts, and at once on an error packet.
  lemma {:induction false} ConnectTakesAll(s: Script, transactionID: nat, maxRetries: nat, retry: nat, at: Progress)
    requires retry < maxRetries
    ensures var (c, at') := ConnectFrom(s, transactionID, maxRetries, retry, at);
            c.NotConnected? && (c.why.WriteFailed? || c.why.ReadFailed? || c.why.TooShort? || c.why.UnexpectedAction?) ==>
              at'.rounds == at.rounds + (maxRetries - retry)
    decreases maxRetries - retry
  {
    hide Read, Value;
    if ConnectVerdict(s.rounds(at.rounds), transactionID).Retry? && retry != maxRetries - 1 {
      ConnectTakesAll(s, transactionID, maxRetries, retry + 1, at.(rounds := at.rounds + 1));
    }
  }

  lemma ConnectErrorEnds(s: Script, transactionID: nat, maxRetries: nat, retry: nat, at: Progress, message: Bytes)
    requires retry < maxRetries && Rejected(s.rounds(at.rounds), transactionID, 2048, message)
    ensures ConnectFrom(s, transactionID, maxRetries, retry, at).0 == NotConnected(TrackerError(message))
  {
    hide FirstMatch, Value;
  }

  // A reply of this tracker, possibly behind stale datagrams, is accepted with every peer it lists.
  lemma ServerReplyIsAccepted(c: Client, r: Round, stale: seq<Bytes>, rest: seq<Bytes>, reply: Response)
    requires c.net.Sound() && AllOfFamily(c.net, reply.peers, c.isIPv6) && |reply.peers| <= MAX_NUM_WANT
    requires r.transactionID < Range(4) && reply.interval < Range(4) && reply.incomplete < Range(4) && reply.complete < Range(4)
    requires !r.canceled && r.written
    requires r.datagrams == stale + [ReplyBytes(c.net, r.transactionID, reply, c.isIPv6)] + rest
    requires forall i :: 0 <= i < |stale| ==> !Matches(Cut(stale[i], READ_BUFFER), r.transactionID)
    ensures var packet := ReplyBytes(c.net, r.transactionID, reply, c.isIPv6);
            && AnnounceVerdict(r) == Accept(packet)
            && |packet| >= REPLY_HEADER
            && Parsed(c.net, packet, c.isIPv6) == reply.(peers := Delivered(c.net, reply.peers))
  {
    hide Net.Sound, Value, BE, Range, ReplyBytes, Parsed, Delivered, AllOfFamily;
    var packet := ReplyBytes(c.net, r.transactionID, reply, c.isIPv6);
    ReplyRoundTrip(c.net, r.transactionID, reply, c.isIPv6);
    ReplySize(c.net, r.transactionID, reply, c.isIPv6);
    assert r.datagrams == stale + ([packet] + rest);
    FirstMatchSkips(stale, [packet] + rest, r.transactionID, READ_BUFFER);
    assert Cut(packet, READ_BUFFER) == packet;
  }

  // The loops as written

  class Network {
    const script: Script
    var rounds: nat
    var dials: nat
    var sent: seq<Sent>

    constructor (script: Script)
      ensures this.script == script && View() == Progress(0, 0, [])
    {
      this.script := script;
      rounds, dials, sent := 0, 0, [];
    }

    function View(): Progress
      reads this
    {
      Progress(rounds, dials, sent)
    }

    method NextRound() returns (r: Round)
      modifies `rounds
      ensures r == script.rounds(old(rounds)) && rounds == old(rounds) + 1
    {
      r := script.rounds(rounds);
      rounds := rounds + 1;
    }

    method Dial() returns (transactionID: Option<nat>)
      modifies `dials
      ensures transactionID == script.dials(old(dials)) && dials == old(dials) + 1
    {
      transactionID := script.dials(dials);
      dials := dials + 1;
    }
  }

  method ReadTrackerResponse(r: Round, transactionID: nat, buffer: nat) returns (packet: Option<Bytes>)
    ensures packet == Read(r, transactionID, buffer)
  {
    hide Value;
    var k := 0;
    while k < |r.datagrams|
      invariant k <= |r.datagrams|
      invariant FirstMatch(r.datagrams[k..], transactionID, buffer) == FirstMatch(r.datagrams, transactionID, buffer)
    {
      var datagram := Cut(r.datagrams[k], buffer);
      assert r.datagrams[k..][1..] == r.datagrams[k + 1..];
      k := k + 1;
      if |datagram| < 8 || Value(datagram[4..8]) != transactionID {
        continue;
      }
      return Some(datagram);
    }
    return None;
  }

  class UDPForwarder {
    const maxRetries: int
    const net: Net
    const staleCookie: Bytes -> bool
    var connections: map<string, nat>

    constructor (retries: int, net: Net, staleCookie: Bytes -> bool)
      ensures maxRetries > 0 && connections == map[] && this.net == net && this.staleCookie == staleCookie
      ensures retries > 0 ==> maxRetries == retries
    {
      maxRetries := if retries <= 0 then 5 else retries;
      this.net, this.staleCookie, connections := net, staleCookie, map[];
    }

    function Cached(name: string): Option<nat>
      reads this
    {
      if name in connections then Some(connections[name]) else None
    }

    function Settings(isIPv6: bool): Client
      requires maxRetries > 0
    {
      Client(net, isIPv6, maxRetries, staleCookie)
    }

    // connect: every pass of the loop either returns, tries again, or leaves it with a connection ID.
    method Connect(network: Network, name: string) returns (c: Connection)
      requires maxRetries > 0
      modifies this, network
      ensures (c, network.View()) == Connecting(network.script, maxRetries, old(network.View()))
      ensures connections == if c.Connected? then old(connections)[name := c.id] else old(connections)
    {
      hide Value, Read;
      var dialed := network.Dial();
      if dialed.None? {
        return NotConnected(DialFailed);
      }
      var transactionID := dialed.value;
      var connectionID: Option<nat> := None;
      var retry := 0;
      ghost var from := network.View();
      while retry < maxRetries
        invariant 0 <= retry < maxRetries && connectionID == None && connections == old(connections)
        invariant ConnectFrom(network.script, transactionID, maxRetries, retry, network.View()) ==
                  ConnectFrom(network.script, transactionID, maxRetries, 0, from)
        decreases maxRetries - retry
      {
        var r := network.NextRound();
        if r.canceled {
          return NotConnected(Canceled);
        }
        if !r.written {
          if retry == maxRetries - 1 { return NotConnected(WriteFailed); }
          retry := retry + 1;
          continue;
        }
        var packet := ReadTrackerResponse(r, transactionID, CONNECT_BUFFER);
        if packet.None? || |packet.value| < 8 {
          if retry == maxRetries - 1 { return NotConnected(ReadFailed); }
          retry := retry + 1;
          continue;
        }
        var n, action := |packet.value|, Value(packet.value[..4]);
        if action == ACTION_ERROR {
          return NotConnected(TrackerError(packet.value[8..]));
        }
        if n < 16 {
          if retry == maxRetries - 1 { return NotConnected(TooShort(n)); }
          retry := retry + 1;
          continue;
        }
        if action != ACTION_CONNECT {
          if retry == maxRetries - 1 { return NotConnected(UnexpectedAction(action)); }
          retry := retry + 1;
          continue;
        }
        connectionID := Some(Value(packet.value[8..16]));
        break;
      }
      connections := connections[name := connectionID.value];
      return Connected(connectionID.value);
    }

    // AnnounceContext, once a connection ID is at hand. The loop ends because a refresh happens once and
    // every other pass uses up an attempt; it never falls through without a response.
    method Announce(network: Network, name: string, isIPv6: bool, firstID: nat) returns (outcome: Outcome)
      requires maxRetries > 0
      modifies this, network
      ensures var start := Loop(0, false, firstID, old(Cached(name)), old(network.View()));
              var (o, l) := Announcing(network.script, Settings(isIPv6), start);
              outcome == o && network.View() == l.at && Cached(name) == l.cached
      ensures connections - {name} == old(connections) - {name}
    {
      hide Value, Read, Connecting, Parsed;
      ghost var c := Settings(isIPv6);
      ghost var want := Announcing(network.script, c, Loop(0, false, firstID, Cached(name), network.View()));
      var response: Option<Response> := None;
      var size := 0;
      var connectionID, retriedAfterReconnect := firstID, false;
      var retry := 0;
      while retry < maxRetries
        invariant 0 <= retry < maxRetries && response == None
        invariant Announcing(network.script, c, Loop(retry, retriedAfterReconnect, connectionID, Cached(name), network.View())) == want
        invariant connections - {name} == old(connections) - {name}
        decreases if retriedAfterReconnect then 0 else 1, maxRetries - retry
      {
        var r := network.NextRound();
        if r.canceled {
          return Failed(Canceled);
        }
        network.sent := network.sent + [Sent(connectionID, r.transactionID)];
        if !r.written {
          if retry == maxRetries - 1 { return Failed(WriteFailed); }
          retry := retry + 1;
          continue;
        }
        var packet := ReadTrackerResponse(r, r.transactionID, READ_BUFFER);
        if packet.None? || |packet.value| < 8 {
          if retry == maxRetries - 1 { return Failed(ReadFailed); }
          retry := retry + 1;
          continue;
        }
        var n, action := |packet.value|, Value(packet.value[..4]);
        size := n;
        if action == ACTION_ERROR {
          var message := packet.value[8..];
          connections := connections - {name};
          if !retriedAfterReconnect && staleCookie(message) {
            retriedAfterReconnect := true;
            var reconnected := Connect(network, name);
            if reconnected.NotConnected? {
              return Failed(ReconnectFailed(message, reconnected.why));
            }
            connectionID := reconnected.id;
            retry := retry - 1; // a refresh does not use up an attempt
            retry := retry + 1;
            continue;
          }
          return Failed(TrackerError(message));
        }
        if n < REPLY_HEADER {
          if retry == maxRetries - 1 { return Failed(TooShort(n)); }
          retry := retry + 1;
          continue;
        }
        if action != ACTION_ANNOUNCE {
          if retry == maxRetries - 1 { return Failed(UnexpectedAction(action)); }
          retry := retry + 1;
          continue;
        }
        var parsed := ParseReply(net, packet.value, isIPv6);
        response := Some(parsed);
        break;
      }
      return Success(response.value, size);
    }
  }
}
