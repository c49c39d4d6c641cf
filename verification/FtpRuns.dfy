/**
 An FTP session over whole runs: any command lines, with the user table changing in
 between, up to the `remove_client` at its end. Nobody else touches the session here;
 a concurrent `stop` is the subject of module FtpShutdown.
 */
module FtpRuns {
  import opened Sequences
  import opened Paths
  import opened CommandLines
  import opened FtpSession

  datatype Op =
    | Line(line: string, env: Env)
    | AddUser(name: string, pass: string, root: string, perm: Perm)
    | AddAnonymous(root: string, perm: Perm)
    | ClearUsers

  /** `login` remembers the table entry of the last accepted login; no step depends on it. */
  datatype World = World(session: Session, users: seq<User>, login: Option<User>)

  /** The table entry against which a command logs the session in, if it does. */
  function LoginBy(s: Session, users: seq<User>, c: Command): Option<User> {
    match c
    case Name(arg) =>
      var found := FindUser(users, arg);
      if found.Some? && found.value.anon then found else None
    case Password(arg) => if PassAccepted(s, users, arg) then FindAccount(users, s.user) else None
    case _ => None
  }

  function Step(w: World, tmp: string, op: Op): World {
    match op
    case Line(line, env) =>
      var c := Parse(line);
      var who := LoginBy(w.session, w.users, c);
      World(Performed(w.session, w.users, tmp, c, env), w.users, if who.Some? then who else w.login)
    case AddUser(name, pass, root, perm) => w.(users := WithAccount(w.users, User(name, pass, root, perm, false)))
    case AddAnonymous(root, perm) => w.(users := w.users + [User("anonymous", "", root, perm, true)])
    case ClearUsers => w.(users := [])
  }

  function Run(tmp: string, ops: seq<Op>): World {
    if ops == [] then World(NEW_SESSION, [], None)
    else Step(Run(tmp, ops[..|ops| - 1]), tmp, ops[|ops| - 1])
  }

  // ---------- what a line can change ----------

  /** The part of the state that only a login changes. */
  function Rights(s: Session): (bool, Perm, string) {
    (s.auth, s.perm, s.phyRoot)
  }

  lemma RightsAfter(s: Session, users: seq<User>, tmp: string, c: Command, env: Env)
    ensures var who := LoginBy(s, users, c);
            Rights(Performed(s, users, tmp, c, env)) ==
            if who.Some? then (true, who.value.perm, RootOf(tmp, who.value)) else Rights(s)
  {
    hide Resolve, ChangeDir, FindUser, FindAccount, RootOf;
  }

  // ---------- logins ----------

  lemma {:induction false} FindUserSound(users: seq<User>, arg: string)
    requires FindUser(users, arg).Some?
    ensures var u := FindUser(users, arg).value;
            u in users && (u.name == arg || (u.anon && arg == "anonymous"))
  {
    if !(users[0].name == arg || (users[0].anon && arg == "anonymous")) {
      FindUserSound(users[1..], arg);
    }
  }

  lemma {:induction false} FindAccountSound(users: seq<User>, name: string)
    ensures FindAccount(users, name).Some? ==>
              var u := FindAccount(users, name).value; u in users && u.name == name && !u.anon
    ensures FindAccount(users, name).None? ==> forall u :: u in users && u.name == name ==> u.anon
  {
    if users != [] && !(users[0].name == name && !users[0].anon) {
      FindAccountSound(users[1..], name);
    }
  }

  ghost predicate Sound(w: World, tmp: string) {
    && (w.session.auth <==> w.login.Some?)
    && (w.login.Some? ==> w.session.perm == w.login.value.perm && w.session.phyRoot == RootOf(tmp, w.login.value))
    && (w.login.None? ==> w.session.perm == Perm(false, false) && w.session.phyRoot == "")
  }

  lemma SoundStep(w: World, tmp: string, op: Op)
    requires Sound(w, tmp)
    ensures Sound(Step(w, tmp, op), tmp)
    ensures w.session.auth ==> Step(w, tmp, op).session.auth
  {
    if op.Line? {
      RightsAfter(w.session, w.users, tmp, Parse(op.line), op.env);
    }
  }

  /**
   In every run: a session is authenticated exactly when some login has been accepted,
   it never stops being so, and its permissions and root are those of the table entry
   of the most recent accepted login, together.
   */
  lemma {:induction false} LoginSoundness(tmp: string, ops: seq<Op>)
    ensures Sound(Run(tmp, ops), tmp)
    ensures forall n :: 0 <= n <= |ops| && Run(tmp, ops[..n]).session.auth ==> Run(tmp, ops).session.auth
  {
    if ops != [] {
      var before := ops[..|ops| - 1];
      LoginSoundness(tmp, before);
      SoundStep(Run(tmp, before), tmp, ops[|ops| - 1]);
      forall n | 0 <= n <= |ops| && Run(tmp, ops[..n]).session.auth ensures Run(tmp, ops).session.auth {
        if n < |ops| {
          assert ops[..n] == before[..n];
        } else {
          assert ops[..n] == ops;
        }
      }
    }
  }

  /** A login is accepted only against an entry that is in the table at that moment, with its own password. */
  lemma LoginAgainstTable(s: Session, users: seq<User>, c: Command)
    requires LoginBy(s, users, c).Some?
    ensures var u := LoginBy(s, users, c).value;
            && u in users
            && (u.anon ==> c.Name? && (u.name == c.arg || c.arg == "anonymous"))
            && (!u.anon ==> c.Password? && u.name == s.user && u.pass == c.arg && !s.auth)
  {
    if c.Name? {
      FindUserSound(users, c.arg);
    } else {
      FindAccountSound(users, s.user);
    }
  }

  lemma {:induction false} AccountFound(users: seq<User>, u: User, name: string)
    requires !u.anon
    ensures FindAccount(WithAccount(users, u), name) == if name == u.name then Some(u) else FindAccount(users, name)
  {
    if users != [] && !(users[0].name == u.name && !users[0].anon) {
      AccountFound(users[1..], u, name);
      assert WithAccount(users, u)[1..] == WithAccount(users[1..], u);
    } else if users != [] {
      assert WithAccount(users, u)[1..] == users[1..];
    }
  }

  /** `add_user` makes the new password, and no other, the one that PASS accepts; other accounts keep theirs. */
  lemma AddUserOverwrites(s: Session, users: seq<User>, u: User, arg: string)
    requires !u.anon && !s.auth && s.user != ""
    ensures PassAccepted(s, WithAccount(users, u), arg) <==>
            if s.user == u.name then arg == u.pass else PassAccepted(s, users, arg)
  {
    AccountFound(users, u, s.user);
  }

  // ---------- effects ----------

  /** The effect is the call the command asks for, by a session that may make it, on the path `resolve` grants. */
  ghost predicate Licensed(s: Session, c: Command, e: Effect) {
    && (c.Transfer? || c.FileCall?)
    && s.auth && Permitted(s.perm, c.kind)
    && e == OnPath(c.kind, Resolve(s.phyRoot, s.cwd, c.arg)) && e.path != ""
  }

  ghost predicate LoginEffect(s: Session, users: seq<User>, tmp: string, c: Command, e: Effect) {
    && c.Password? && PassAccepted(s, users, c.arg)
    && e == MakeRoot(RootOf(tmp, FindAccount(users, s.user).value))
  }

  /**
   A command makes at most one call outside: the root directory of an account that has
   just logged in, or the call it asks for, with the session logged in and the
   permission bit held.
   */
  lemma EffectsLicensed(s: Session, users: seq<User>, tmp: string, c: Command, env: Env)
    ensures var s' := Performed(s, users, tmp, c, env);
            || s'.effects == s.effects
            || exists e :: s'.effects == s.effects + [e] && (Licensed(s, c, e) || LoginEffect(s, users, tmp, c, e))
  {
    var s' := Performed(s, users, tmp, c, env);
    match c {
      case Password(arg) => PassEffects(s, users, tmp, arg);
      case Transfer(kind, arg) => TransferEffects(s, env, kind, arg);
      case FileCall(kind, arg) => FileOpEffects(s, env, kind, arg);
      case _ => assert s'.effects == s.effects;
    }
  }

  lemma PassEffects(s: Session, users: seq<User>, tmp: string, arg: string)
    ensures var after := AfterPass(s, users, tmp, arg).effects;
            || after == s.effects
            || (PassAccepted(s, users, arg) &&
                after == s.effects + [MakeRoot(RootOf(tmp, FindAccount(users, s.user).value))])
  {
  }

  predicate Granted(s: Session, after: seq<Effect>, e: Effect) {
    after == s.effects || (after == s.effects + [e] && s.auth && e.OnPath? && Permitted(s.perm, e.kind) && e.path != "")
  }

  lemma TransferEffects(s: Session, env: Env, kind: Kind, arg: string)
    ensures Granted(s, AfterTransfer(s, env, kind, arg).effects, OnPath(kind, Resolve(s.phyRoot, s.cwd, arg)))
  {
  }

  lemma FileOpEffects(s: Session, env: Env, kind: Kind, arg: string)
    ensures Granted(s, AfterFileOp(s, env, kind, arg).effects, OnPath(kind, Resolve(s.phyRoot, s.cwd, arg)))
  {
  }

  // ---------- the current directory ----------

  /** In every run the current directory is canonical, whatever the client has asked for. */
  lemma {:induction false} CwdStaysCanonical(tmp: string, ops: seq<Op>)
    ensures CanonicalDir(Run(tmp, ops).session.cwd)
  {
    if ops != [] {
      var before := ops[..|ops| - 1];
      CwdStaysCanonical(tmp, before);
      CwdAfter(Run(tmp, before), tmp, ops[|ops| - 1]);
    }
  }

  lemma OnlyCwdMoves(s: Session, users: seq<User>, tmp: string, c: Command, env: Env)
    ensures var s' := Performed(s, users, tmp, c, env);
            s'.cwd == s.cwd || (c.ChangeTo? && s'.cwd == ChangeDir(s.cwd, c.arg))
  {
    hide Resolve, ChangeDir, FindUser, FindAccount, RootOf;
  }

  lemma CwdAfter(w: World, tmp: string, op: Op)
    requires CanonicalDir(w.session.cwd)
    ensures CanonicalDir(Step(w, tmp, op).session.cwd)
  {
    if op.Line? {
      var c := Parse(op.line);
      OnlyCwdMoves(w.session, w.users, tmp, c, op.env);
      if c.ChangeTo? {
        ChangeDirCanonical(w.session.cwd, c.arg);
      }
    }
  }

  // ---------- command lines ----------

  /** A line of one word and an argument. */
  function CommandLine(word: string, arg: string): string {
    word + ([' '] + arg)
  }

  lemma WordAndArgument(word: string, arg: string)
    requires ' ' !in word
    ensures CommandWord(CommandLine(word, arg)) == Upper(word) && Argument(CommandLine(word, arg)) == arg
  {
    var line := CommandLine(word, arg);
    assert line[..|word|] == word && line[|word|] == ' ';
    FindsFirst(line, ' ', |word|);
    assert line[|word| + 1..] == arg;
  }

  lemma CwdLine(arg: string)
    ensures Parse(CommandLine("CWD", arg)) == ChangeTo(arg)
  {
    WordAndArgument("CWD", arg);
    assert Upper("CWD") == "CWD";
  }

  lemma CdupLine()
    ensures Parse("CDUP") == ChangeTo("..")
  {
    assert "CDUP"[..4] == "CDUP" && Find("CDUP", ' ') == 4;
    assert Upper("CDUP") == "CDUP";
  }

  /** The reply to a CWD: it needs a login and the read permission. */
  function CwdCode(s: Session): nat {
    if !s.auth then 530 else if !s.perm.read then 550 else 250
  }

  /** After every run, a CWD line with the path that PWD prints changes nothing but the reply log. */
  lemma PwdThenCwd(tmp: string, ops: seq<Op>, env: Env)
    ensures var w := Run(tmp, ops);
            Step(w, tmp, Line(CommandLine("CWD", "/" + w.session.cwd), env)) ==
            w.(session := Replied(w.session, CwdCode(w.session)))
  {
    var s := Run(tmp, ops).session;
    CwdLine("/" + s.cwd);
    CwdStaysCanonical(tmp, ops);
    PwdRoundTrip(s.cwd, s.cwd);
  }

  /** After every run, a CWD line with a plain name and then CDUP leave the session as it was. */
  lemma CwdThenCdup(tmp: string, ops: seq<Op>, name: string, env: Env)
    requires Plain(name)
    ensures var w := Run(tmp, ops);
            var code := CwdCode(w.session);
            Step(Step(w, tmp, Line(CommandLine("CWD", name), env)), tmp, Line("CDUP", env)) ==
            w.(session := Replied(Replied(w.session, code), code))
  {
    hide Run, Parse, CommandLine, ChangeDir;
    var s := Run(tmp, ops).session;
    CwdLine(name);
    CdupLine();
    CwdStaysCanonical(tmp, ops);
    CdupUndoesCwd(s.cwd, name);
  }

  // ---------- passive listeners ----------

  function OpenedIn(events: seq<Event>): multiset<nat> {
    if events == [] then multiset{}
    else
      var e := events[|events| - 1];
      OpenedIn(events[..|events| - 1]) + if e.Opened? then multiset{e.l} else multiset{}
  }

  function ClosedIn(events: seq<Event>): multiset<nat> {
    if events == [] then multiset{}
    else
      var e := events[|events| - 1];
      ClosedIn(events[..|events| - 1]) + if e.Closed? then multiset{e.l} else multiset{}
  }

  lemma EventsSnoc(events: seq<Event>, e: Event)
    ensures OpenedIn(events + [e]) == OpenedIn(events) + if e.Opened? then multiset{e.l} else multiset{}
    ensures ClosedIn(events + [e]) == ClosedIn(events) + if e.Closed? then multiset{e.l} else multiset{}
  {
    assert (events + [e])[..|events|] == events;
  }

  function Held(s: Session): multiset<nat> {
    if s.dataSock.Some? then multiset{s.dataSock.value} else multiset{}
  }

  /** Every listener opened is closed or is the one the session holds; and it holds one iff `pasv` is set. */
  ghost predicate Balanced(s: Session) {
    && OpenedIn(s.events) == ClosedIn(s.events) + Held(s)
    && (s.pasv <==> s.dataSock.Some?)
  }

  lemma BalancedClose(s: Session)
    requires Balanced(s)
    ensures Balanced(PasvClosed(s)) && PasvClosed(s).dataSock == None
  {
    if s.dataSock.Some? {
      EventsSnoc(s.events, Closed(s.dataSock.value));
    }
  }

  predicate SameSockets(s: Session, t: Session) {
    t.events == s.events && t.dataSock == s.dataSock && t.pasv == s.pasv
  }

  lemma BalancedSame(s: Session, t: Session)
    requires Balanced(s) && SameSockets(s, t)
    ensures Balanced(t)
  {
  }

  lemma BalancedFailure(s: Session, l: nat)
    requires Balanced(s)
    ensures Balanced(s.(events := s.events + [Opened(l), Closed(l)]))
  {
    EventsSnoc(s.events, Opened(l));
    EventsSnoc(s.events + [Opened(l)], Closed(l));
    ConcatAssociative(s.events, [Opened(l)], [Closed(l)]);
    assert [Opened(l)] + [Closed(l)] == [Opened(l), Closed(l)];
  }

  lemma BalancedOpen(s: Session, l: nat)
    requires Balanced(s) && s.dataSock == None
    ensures Balanced(s.(dataSock := Some(l), pasv := true, events := s.events + [Opened(l)]))
  {
    EventsSnoc(s.events, Opened(l));
  }

  lemma BalancedPasv(s: Session, env: Env)
    requires Balanced(s)
    ensures Balanced(AfterPasv(s, env))
  {
    if s.auth {
      var t := PasvClosed(s);
      BalancedClose(s);
      match env.pasv {
        case NoSocket =>
        case SetupFailed(l) => BalancedFailure(t, l);
        case Listening(l) => BalancedOpen(t, l);
      }
    }
  }

  /** Only PASV, transfers and QUIT touch the data sockets, and a transfer at most uses the listener up. */
  lemma SocketsAfter(s: Session, users: seq<User>, tmp: string, c: Command, env: Env)
    requires !c.Passive? && s.pasv == s.dataSock.Some?
    ensures var s' := Performed(s, users, tmp, c, env);
            SameSockets(s, s') || SameSockets(PasvClosed(s), s')
  {
    hide Resolve, ChangeDir, FindUser, FindAccount, RootOf;
  }

  lemma BalancedAfter(s: Session, users: seq<User>, tmp: string, c: Command, env: Env)
    requires Balanced(s)
    ensures Balanced(Performed(s, users, tmp, c, env))
  {
    if c.Passive? {
      BalancedPasv(s, env);
    } else {
      var s' := Performed(s, users, tmp, c, env);
      SocketsAfter(s, users, tmp, c, env);
      BalancedClose(s);
      BalancedSame(if SameSockets(s, s') then s else PasvClosed(s), s');
    }
  }

  lemma {:induction false} ListenersBalanced(tmp: string, ops: seq<Op>)
    ensures Balanced(Run(tmp, ops).session)
  {
    if ops != [] {
      var before, op := ops[..|ops| - 1], ops[|ops| - 1];
      ListenersBalanced(tmp, before);
      if op.Line? {
        var w := Run(tmp, before);
        BalancedAfter(w.session, w.users, tmp, Parse(op.line), op.env);
      }
    }
  }

  /**
   Along every run that ends in `remove_client`: the listeners that were closed are those
   that were opened, each as often as it was opened.
   */
  lemma ListenersClosedOnce(tmp: string, ops: seq<Op>)
    ensures var s := ClientClosed(Run(tmp, ops).session);
            OpenedIn(s.events) == ClosedIn(s.events) && s.dataSock == None && !s.pasv
  {
    ListenersBalanced(tmp, ops);
    var s := Run(tmp, ops).session.(open := false);
    BalancedClose(s);
  }

  function Count(replies: seq<nat>, code: nat): nat {
    if replies == [] then 0
    else
      var n := |replies| - 1;
      Count(replies[..n], code) + if replies[n] == code then 1 else 0
  }

  lemma CountSnoc(replies: seq<nat>, reply: nat, code: nat)
    ensures Count(replies + [reply], code) == Count(replies, code) + if reply == code then 1 else 0
  {
    assert (replies + [reply])[..|replies|] == replies;
  }

  /** A PASV that leaves a listener to connect to. */
  predicate SetsUp(s: Session, c: Command, env: Env) {
    c.Passive? && s.auth && env.pasv.Listening?
  }

  /** A transfer that runs to its end. */
  predicate Completes(s: Session, c: Command, env: Env) {
    && c.Transfer? && s.auth && Permitted(s.perm, c.kind) && (c.arg != "" || c.kind.ListDir?)
    && Resolve(s.phyRoot, s.cwd, c.arg) != "" && HasData(s, env) && (c.kind.ListDir? || env.ok)
  }

  /** How many lines of a run satisfy each; a session that QUIT has closed is counted too. */
  function SetUps(tmp: string, ops: seq<Op>): nat {
    if ops == [] then 0
    else
      var before, op := ops[..|ops| - 1], ops[|ops| - 1];
      SetUps(tmp, before) + if op.Line? && SetsUp(Run(tmp, before).session, Parse(op.line), op.env) then 1 else 0
  }

  function Transfers(tmp: string, ops: seq<Op>): nat {
    if ops == [] then 0
    else
      var before, op := ops[..|ops| - 1], ops[|ops| - 1];
      Transfers(tmp, before) + if op.Line? && Completes(Run(tmp, before).session, Parse(op.line), op.env) then 1 else 0
  }

  lemma PendingAfter(s: Session, users: seq<User>, tmp: string, c: Command, env: Env)
    requires s.pasv == s.dataSock.Some?
    ensures var s' := Performed(s, users, tmp, c, env);
            && (Completes(s, c, env) ==> s.dataSock.Some? && s'.dataSock.None?)
            && (s'.dataSock.Some? ==> s.dataSock.Some? || SetsUp(s, c, env))
  {
    hide Resolve, ChangeDir, FindUser, FindAccount, RootOf;
  }

  lemma LoginReply(s: Session, users: seq<User>, tmp: string, c: Command, env: Env) returns (code: nat)
    requires s.open && (c.Name? || c.Password?)
    ensures Performed(s, users, tmp, c, env).replies == s.replies + [code] && code != 226 && code != 227
  {
    hide FindUser, FindAccount, RootOf;
    var s' := Performed(s, users, tmp, c, env);
    code := s'.replies[|s'.replies| - 1];
  }

  lemma PassiveReply(s: Session, env: Env) returns (code: nat)
    requires s.open
    ensures AfterPasv(s, env).replies == s.replies + [code]
    ensures code != 226 && (code == 227 <==> SetsUp(s, Passive, env))
  {
    var s' := AfterPasv(s, env);
    code := s'.replies[|s'.replies| - 1];
  }

  lemma OneReply(s: Session, users: seq<User>, tmp: string, c: Command, env: Env) returns (code: nat)
    requires s.open && !c.Transfer? && (c.Query? || c.Answer? ==> c.code != 226 && c.code != 227)
    ensures Performed(s, users, tmp, c, env).replies == s.replies + [code]
    ensures code != 226 && (code == 227 <==> SetsUp(s, c, env))
  {
    hide Resolve, ChangeDir;
    var s' := Performed(s, users, tmp, c, env);
    if c.Name? || c.Password? {
      code := LoginReply(s, users, tmp, c, env);
    } else if c.Passive? {
      code := PassiveReply(s, env);
    } else {
      code := s'.replies[|s'.replies| - 1];
    }
  }

  lemma TransferReplies(s: Session, env: Env, kind: Kind, arg: string) returns (early: bool, code: nat)
    requires s.open
    ensures AfterTransfer(s, env, kind, arg).replies == (if early then s.replies + [150] else s.replies) + [code]
    ensures code != 227 && (code == 226 <==> Completes(s, Transfer(kind, arg), env))
  {
    hide Resolve;
    var s' := AfterTransfer(s, env, kind, arg);
    early, code := |s'.replies| > |s.replies| + 1, s'.replies[|s'.replies| - 1];
  }

  /** While the control connection is open, a completed transfer is a 226 and a set-up a 227, and nothing else is. */
  lemma CodesAfter(s: Session, users: seq<User>, tmp: string, c: Command, env: Env)
    requires s.open && (c.Query? || c.Answer? ==> c.code != 226 && c.code != 227)
    ensures var s' := Performed(s, users, tmp, c, env);
            && Count(s'.replies, 226) == Count(s.replies, 226) + (if Completes(s, c, env) then 1 else 0)
            && Count(s'.replies, 227) == Count(s.replies, 227) + (if SetsUp(s, c, env) then 1 else 0)
  {
    if c.Transfer? {
      var early, code := TransferReplies(s, env, c.kind, c.arg);
      CountSnoc(s.replies, 150, 226);
      CountSnoc(s.replies, 150, 227);
      var before := if early then s.replies + [150] else s.replies;
      CountSnoc(before, code, 226);
      CountSnoc(before, code, 227);
    } else {
      var code := OneReply(s, users, tmp, c, env);
      CountSnoc(s.replies, code, 226);
      CountSnoc(s.replies, code, 227);
    }
  }

  lemma ClosedIsSilent(s: Session, users: seq<User>, tmp: string, c: Command, env: Env)
    requires !s.open
    ensures var s' := Performed(s, users, tmp, c, env); !s'.open && s'.replies == s.replies
  {
  }

  /** The state of the account: t transfers completed and u listeners set up so far. */
  predicate Covered(s: Session, t: nat, u: nat) {
    && t + (if s.dataSock.Some? then 1 else 0) <= u
    && (s.open ==> Count(s.replies, 226) == t && Count(s.replies, 227) == u)
    && Count(s.replies, 226) <= Count(s.replies, 227)
  }

  lemma CoveredAfter(s: Session, users: seq<User>, tmp: string, c: Command, env: Env, t: nat, u: nat)
    requires Covered(s, t, u) && Balanced(s) && (c.Query? || c.Answer? ==> c.code != 226 && c.code != 227)
    ensures Covered(Performed(s, users, tmp, c, env),
                    t + if Completes(s, c, env) then 1 else 0, u + if SetsUp(s, c, env) then 1 else 0)
  {
    hide Performed, Count;
    PendingAfter(s, users, tmp, c, env);
    if s.open {
      CodesAfter(s, users, tmp, c, env);
    } else {
      ClosedIsSilent(s, users, tmp, c, env);
    }
  }

  /**
   No more transfers are completed than listeners are set up, and a pending listener is
   one to spare; this counts what is served after QUIT, when nothing is reported any
   more. What is reported agrees while the control connection is open.
   */
  lemma {:induction false} TransfersCovered(tmp: string, ops: seq<Op>)
    ensures Covered(Run(tmp, ops).session, Transfers(tmp, ops), SetUps(tmp, ops))
  {
    if ops != [] {
      var before, op := ops[..|ops| - 1], ops[|ops| - 1];
      TransfersCovered(tmp, before);
      ListenersBalanced(tmp, before);
      if op.Line? {
        var w := Run(tmp, before);
        CoveredAfter(w.session, w.users, tmp, Parse(op.line), op.env, Transfers(tmp, before), SetUps(tmp, before));
      }
    }
  }
}
