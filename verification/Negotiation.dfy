/**
 * Negotiation of the padding scheme (src/runtime/session.rs, `run`, `on_receive_settings` and the
 * UpdatePaddingScheme branch of `receive_loop`): a client announces the digest of its scheme with
 * every session, and a server that has another one sends it.
 */
module Negotiations {
  import opened Wrappers
  import opened Texts
  import opened StringMaps
  import opened Frames
  import opened Paddings

  function SettingsOf(md5: Text, program: Text, session: nat): StringMap {
    map[Ascii("v") := Ascii("2"), Ascii("client") := program,
        Ascii("padding-md5") := md5, Ascii("session") := Decimal(session)]
  }

  lemma KeysDiffer()
    ensures Ascii("padding-md5") != Ascii("v") && Ascii("padding-md5") != Ascii("client")
    ensures Ascii("padding-md5") != Ascii("session") && Ascii("session") != Ascii("v")
    ensures Ascii("session") != Ascii("client")
  {
    assert |Ascii("padding-md5")| == 11 && |Ascii("v")| == 1 && |Ascii("client")| == 6 && |Ascii("session")| == 7;
  }

  lemma PlainText(s: string)
    requires forall i :: 0 <= i < |s| ==> 'a' <= s[i] <= 'z' || '0' <= s[i] <= '9' || s[i] == '-'
    ensures EQUALS !in Ascii(s) && NEWLINE !in Ascii(s)
  {
  }

  lemma SettingsAreClean(md5: Text, program: Text, session: nat)
    requires NEWLINE !in md5 && NEWLINE !in program
    ensures CleanMap(SettingsOf(md5, program, session))
  {
    hide Ascii, Decimal;
    PlainText("v");
    PlainText("2");
    PlainText("client");
    PlainText("padding-md5");
    PlainText("session");
    assert forall i :: 0 <= i < |Decimal(session)| ==> IsDigit(Decimal(session)[i]);
  }

  /** For every iteration order of the client's hash map, the server reads the same settings. */
  lemma SettingsSurvive(md5: Text, program: Text, session: nat, items: seq<(Text, Text)>)
    requires NEWLINE !in md5 && NEWLINE !in program && Enumerates(items, SettingsOf(md5, program, session))
    ensures FromBytes(ToBytes(items)) == SettingsOf(md5, program, session)
  {
    hide Ascii, Decimal, FromBytes, ToBytes, Enumerates;
    SettingsAreClean(md5, program, session);
    RoundTrip(SettingsOf(md5, program, session), items);
  }

  /** The server learns the client's session number. */
  lemma PeerSessionLearned(md5: Text, program: Text, session: nat, items: seq<(Text, Text)>, max: nat)
    requires NEWLINE !in md5 && NEWLINE !in program && Enumerates(items, SettingsOf(md5, program, session))
    requires session <= max
    ensures var m := FromBytes(ToBytes(items));
            Ascii("session") in m && ParseUnsigned(m[Ascii("session")], max) == Some(session)
  {
    hide Ascii, Decimal, FromBytes, ToBytes, Enumerates, ParseUnsigned;
    SettingsSurvive(md5, program, session, items);
    DecimalParses(session, max);
  }

  /** The scheme a server sends in answer to Settings, if any. */
  function Update(server: PaddingFactory, data: Text): Option<Text> {
    var m := FromBytes(data);
    if Ascii("padding-md5") in m && m[Ascii("padding-md5")] == server.md5 then None else Some(server.rawScheme)
  }

  /** A server sends its scheme exactly when the digests differ. */
  lemma UpdateIff(server: PaddingFactory, md5: Text, program: Text, session: nat, items: seq<(Text, Text)>)
    requires NEWLINE !in md5 && NEWLINE !in program && Enumerates(items, SettingsOf(md5, program, session))
    ensures Update(server, ToBytes(items)).Some? <==> md5 != server.md5
  {
    hide Ascii, Decimal, FromBytes, ToBytes, Enumerates;
    SettingsSurvive(md5, program, session, items);
    KeysDiffer();
  }

  // ---- over many sessions ----

  /** One session's exchange: the digest announced, and the frames on their way. */
  datatype Talk = Talk(md5: Text, settings: Option<Text>, update: Option<Text>, updated: bool, ended: bool)

  datatype World = World(client: PaddingFactory, talks: seq<Talk>)

  datatype Event =
    | Announce(session: nat, items: seq<(Text, Text)>)   // `run` of a new client session
    | ServerReads(i: nat)
    | ClientReads(i: nat)

  /** What stays fixed: the server's scheme, the client's name and the digest function. */
  datatype Setup = Setup(server: PaddingFactory, program: Text, digest: Text -> Text) {
    /** The server's factory was built from its raw scheme; digests and names are single lines. */
    ghost predicate Good() {
      && NewFactory(server.rawScheme, digest) == Some(server)
      && NEWLINE !in program
      && forall raw :: NEWLINE !in digest(raw)
    }
  }

  ghost predicate Enabled(u: Setup, w: World, e: Event) {
    match e
    case Announce(session, items) => Enumerates(items, SettingsOf(w.client.md5, u.program, session))
    case ServerReads(i) => i < |w.talks| && w.talks[i].settings.Some? && !w.talks[i].ended
    case ClientReads(i) => i < |w.talks| && w.talks[i].update.Some? && !w.talks[i].ended
  }

  /** The server's side: an update that does not fit a frame ends the session instead. */
  function AfterServer(u: Setup, t: Talk): Talk
    requires t.settings.Some?
  {
    var update := Update(u.server, t.settings.value);
    if update.None? then t.(settings := None)
    else if |update.value| > MAX_FRAME_DATA_SIZE then t.(settings := None, ended := true)
    else t.(settings := None, update := update, updated := true)
  }

  function AfterClient(u: Setup, client: PaddingFactory, data: Text): PaddingFactory {
    match NewFactory(data, u.digest)
    case Some(factory) => factory
    case None => client
  }

  ghost function Apply(u: Setup, w: World, e: Event): World
    requires Enabled(u, w, e)
  {
    match e
    case Announce(_, items) => w.(talks := w.talks + [Talk(w.client.md5, Some(ToBytes(items)), None, false, false)])
    case ServerReads(i) => w.(talks := w.talks[i := AfterServer(u, w.talks[i])])
    case ClientReads(i) =>
      World(AfterClient(u, w.client, w.talks[i].update.value), w.talks[i := w.talks[i].(update := None)])
  }

  ghost predicate Step(u: Setup, w: World, w': World) {
    exists e :: Enabled(u, w, e) && w' == Apply(u, w, e)
  }

  ghost predicate IsRun(u: Setup, run: seq<World>) {
    && run != []
    && run[0].talks == [] && (exists raw :: NewFactory(raw, u.digest) == Some(run[0].client))
    && forall i :: 0 < i < |run| ==> Step(u, run[i - 1], run[i])
  }

  /** Settings in flight carry the digest announced; updates carry the server's scheme. */
  ghost predicate TalkOk(u: Setup, t: Talk) {
    && (t.settings.Some? ==> (Update(u.server, t.settings.value).Some? <==> t.md5 != u.server.md5))
    && (t.update.Some? ==> t.update.value == u.server.rawScheme)
    && (t.updated ==> t.md5 != u.server.md5 && |u.server.rawScheme| <= MAX_FRAME_DATA_SIZE)
    && (t.update.Some? ==> t.updated)
    && (if t.settings.Some? then !t.updated && !t.ended
        else
          && (t.updated <==> t.md5 != u.server.md5 && |u.server.rawScheme| <= MAX_FRAME_DATA_SIZE)
          && (t.ended <==> t.md5 != u.server.md5 && |u.server.rawScheme| > MAX_FRAME_DATA_SIZE))
  }

  ghost predicate Inv(u: Setup, w: World, first: PaddingFactory) {
    && (w.client == first || w.client == u.server)
    && (forall i :: 0 <= i < |w.talks| && w.talks[i].updated && w.talks[i].update.None? ==> w.client == u.server)
    && NEWLINE !in first.md5
    && (|u.server.rawScheme| > MAX_FRAME_DATA_SIZE ==> w.client == first)
    && forall i :: 0 <= i < |w.talks| ==> TalkOk(u, w.talks[i])
  }

  lemma ServerKeepsTalk(u: Setup, t: Talk)
    requires TalkOk(u, t) && t.settings.Some?
    ensures TalkOk(u, AfterServer(u, t))
  {
    hide FromBytes, Ascii;
  }

  lemma DigestIsLine(u: Setup, raw: Text, factory: PaddingFactory)
    requires u.Good() && NewFactory(raw, u.digest) == Some(factory)
    ensures NEWLINE !in factory.md5
  {
  }

  lemma StepKeepsInv(u: Setup, w: World, w': World, first: PaddingFactory)
    requires u.Good() && Inv(u, w, first) && Step(u, w, w')
    ensures Inv(u, w', first)
    ensures w.client == u.server ==> w'.client == u.server
    ensures |w.talks| <= |w'.talks|
    ensures forall i :: 0 <= i < |w.talks| ==> w'.talks[i].md5 == w.talks[i].md5
    ensures forall i :: |w.talks| <= i < |w'.talks| ==> w'.talks[i].md5 == w.client.md5
  {
    hide Update, NewFactory, ToBytes, SettingsOf, Enumerates;
    var e :| Enabled(u, w, e) && w' == Apply(u, w, e);
    match e
    case Announce(session, items) =>
      DigestIsLine(u, u.server.rawScheme, u.server);
      UpdateIff(u.server, w.client.md5, u.program, session, items);
    case ServerReads(i) => ServerKeepsTalk(u, w.talks[i]);
    case ClientReads(i) => assert TalkOk(u, w.talks[i]);
  }

  lemma {:induction false} RunInv(u: Setup, run: seq<World>)
    requires u.Good() && IsRun(u, run)
    ensures Inv(u, run[|run| - 1], run[0].client)
    decreases |run|
  {
    hide Step, NewFactory;
    if |run| == 1 {
      var raw :| NewFactory(raw, u.digest) == Some(run[0].client);
      DigestIsLine(u, raw, run[0].client);
    } else {
      RunInv(u, run[..|run| - 1]);
      StepKeepsInv(u, run[|run| - 2], run[|run| - 1], run[0].client);
    }
  }

  /** One mismatching exchange is enough: a client that reads an update has the server's scheme. */
  lemma OneExchangeConverges(u: Setup, run: seq<World>, w: World, i: nat)
    requires u.Good() && IsRun(u, run) && w == run[|run| - 1] && Enabled(u, w, ClientReads(i))
    ensures Apply(u, w, ClientReads(i)).client == u.server
  {
    hide NewFactory, Update;
    RunInv(u, run);
    assert TalkOk(u, w.talks[i]);
  }

  /**
   * Every mismatch is answered: a session whose settings the server has read was sent an update if
   * its digest differed and the scheme fits a frame, was ended if it does not fit, and was neither if
   * the digests agreed; once the update is read too, the client holds the server's scheme.
   */
  lemma EveryMismatchIsAnswered(u: Setup, run: seq<World>, w: World, i: nat)
    requires u.Good() && IsRun(u, run) && w == run[|run| - 1] && i < |w.talks| && w.talks[i].settings.None?
    ensures var t, fits := w.talks[i], |u.server.rawScheme| <= MAX_FRAME_DATA_SIZE;
            && (t.updated <==> t.md5 != u.server.md5 && fits)
            && (t.ended <==> t.md5 != u.server.md5 && !fits)
            && (t.md5 != u.server.md5 && fits && t.update.None? ==> w.client == u.server)
  {
    hide NewFactory, Update;
    RunInv(u, run);
    assert TalkOk(u, w.talks[i]);
  }

  /**
   * Once the client holds the server's scheme it holds it for good, and no session announced from
   * then on is sent an update.
   */
  lemma {:induction false} ConvergedForGood(u: Setup, run: seq<World>, i: nat, j: nat, k: nat)
    requires u.Good() && IsRun(u, run) && i <= j < |run| && run[i].client == u.server
    ensures run[j].client == u.server && |run[i].talks| <= |run[j].talks|
    ensures |run[i].talks| <= k < |run[j].talks| ==> run[j].talks[k].md5 == u.server.md5 && !run[j].talks[k].updated
    decreases j
  {
    hide Step, NewFactory, Update;
    RunInv(u, run[..j + 1]);
    assert run[..j + 1][0] == run[0];
    if i < j {
      ConvergedForGood(u, run, i, j - 1, k);
      RunInv(u, run[..j]);
      StepKeepsInv(u, run[j - 1], run[j], run[0].client);
    }
    if |run[i].talks| <= k < |run[j].talks| {
      assert TalkOk(u, run[j].talks[k]);
    }
  }

  /** The exact limit: a scheme that does not fit a frame is never sent, and the client keeps its own. */
  lemma OversizedNeverSent(u: Setup, run: seq<World>, w: World, i: nat)
    requires u.Good() && IsRun(u, run) && w == run[|run| - 1] && i < |w.talks|
    requires |u.server.rawScheme| > MAX_FRAME_DATA_SIZE
    ensures w.client == run[0].client && !w.talks[i].updated
    ensures w.talks[i].settings.Some? && w.talks[i].md5 != u.server.md5 ==> AfterServer(u, w.talks[i]).ended
  {
    hide NewFactory;
    RunInv(u, run);
    assert TalkOk(u, w.talks[i]);
  }
}
