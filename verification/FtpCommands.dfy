/**
 What a session may do, stated on its fields alone: which calls need which right, when
 they are made, what a login gives, and how each command is answered.
 */
module FtpCommands {
  import opened Sequences
  import opened Paths
  import opened FtpSession
  import opened FtpRuns
  import opened FtpWords

  // ---------- calls and rights ----------

  /** What a command adds to the calls. */
  function Gained(s: Session, s': Session): seq<Effect> {
    if s.effects <= s'.effects then s'.effects[|s.effects|..] else []
  }

  /**
   A call that writes, deletes, makes or removes something is made only by a session
   that is logged in with the write permission; one that lists or reads only with the
   read permission.
   */
  lemma CallsNeedTheRight(s: Session, users: seq<User>, tmp: string, c: Command, env: Env, kind: Kind, path: string)
    requires OnPath(kind, path) in Gained(s, Performed(s, users, tmp, c, env))
    ensures s.effects <= Performed(s, users, tmp, c, env).effects
    ensures s.auth
    ensures kind == WriteFile || kind == DeleteFile || kind == MakeDir || kind == RemoveDir ==> s.perm.write
    ensures kind == ListDir || kind == ReadFile ==> s.perm.read
  {
    hide Resolve, Performed;
    EffectsLicensed(s, users, tmp, c, env);
    var s' := Performed(s, users, tmp, c, env);
    assert s'.effects != s.effects;
    var e :| s'.effects == s.effects + [e] && (Licensed(s, c, e) || LoginEffect(s, users, tmp, c, e));
    assert s'.effects[|s.effects|..] == [e];
  }

  function After(tmp: string, ops: seq<Op>, line: string, env: Env): Session {
    Run(tmp, ops + [Line(line, env)]).session
  }

  lemma AfterLine(tmp: string, ops: seq<Op>, line: string, env: Env)
    ensures var w := Run(tmp, ops);
            After(tmp, ops, line, env) == Performed(w.session, w.users, tmp, Parse(line), env)
  {
    assert (ops + [Line(line, env)])[..|ops|] == ops;
  }

  /** The same over runs: the right is that of the table entry of the last accepted login. */
  lemma RunCallsNeedTheRight(tmp: string, ops: seq<Op>, line: string, env: Env, kind: Kind, path: string)
    requires OnPath(kind, path) in Gained(Run(tmp, ops).session, After(tmp, ops, line, env))
    ensures Run(tmp, ops).login.Some?
    ensures kind == WriteFile || kind == DeleteFile || kind == MakeDir || kind == RemoveDir ==>
              Run(tmp, ops).login.value.perm.write
    ensures kind == ListDir || kind == ReadFile ==> Run(tmp, ops).login.value.perm.read
  {
    var w := Run(tmp, ops);
    AfterLine(tmp, ops, line, env);
    CallsNeedTheRight(w.session, w.users, tmp, Parse(line), env, kind, path);
    LoginSoundness(tmp, ops);
  }

  /** Step i of the run is a line that makes this call, and the login then in force allows it. */
  ghost predicate AllowedAt(tmp: string, ops: seq<Op>, i: nat, kind: Kind, path: string)
    requires i < |ops|
  {
    var w := Run(tmp, ops[..i]);
    && ops[i].Line? && w.login.Some?
    && (kind == WriteFile || kind == DeleteFile || kind == MakeDir || kind == RemoveDir ==> w.login.value.perm.write)
    && (kind == ListDir || kind == ReadFile ==> w.login.value.perm.read)
    && exists arg :: path == Resolve(RootOf(tmp, w.login.value), w.session.cwd, arg) && path != ""
  }

  lemma AllowedFront(tmp: string, ops: seq<Op>, i: nat, kind: Kind, path: string)
    requires i < |ops| - 1 && AllowedAt(tmp, ops[..|ops| - 1], i, kind, path)
    ensures AllowedAt(tmp, ops, i, kind, path)
  {
    assert ops[..|ops| - 1][..i] == ops[..i];
  }

  lemma AllowedLast(tmp: string, before: seq<Op>, op: Op, kind: Kind, path: string)
    requires var w := Run(tmp, before); OnPath(kind, path) in Gained(w.session, Step(w, tmp, op).session)
    ensures AllowedAt(tmp, before + [op], |before|, kind, path)
  {
    hide Resolve, Performed, Parse, RootOf;
    var w, all := Run(tmp, before), before + [op];
    assert all[..|before|] == before && all[|before|] == op;
    assert op.Line?;
    var c := Parse(op.line);
    CallsNeedTheRight(w.session, w.users, tmp, c, op.env, kind, path);
    EffectsLicensed(w.session, w.users, tmp, c, op.env);
    var s' := Performed(w.session, w.users, tmp, c, op.env);
    assert s'.effects != w.session.effects;
    var e :| s'.effects == w.session.effects + [e] &&
             (Licensed(w.session, c, e) || LoginEffect(w.session, w.users, tmp, c, e));
    assert s'.effects[|w.session.effects|..] == [e];
    LoginSoundness(tmp, before);
    assert path == Resolve(RootOf(tmp, w.login.value), w.session.cwd, c.arg);
  }

  lemma OnlyLinesCall(w: World, tmp: string, op: Op)
    ensures w.session.effects <= Step(w, tmp, op).session.effects
    ensures !op.Line? ==> Step(w, tmp, op).session == w.session
  {
    if op.Line? {
      EffectsLicensed(w.session, w.users, tmp, Parse(op.line), op.env);
    }
  }

  /**
   Every call ever made in a run: it was made by a line whose session was logged in
   against an entry with the permission that the call needs, on a path granted under
   that entry's root.
   */
  lemma {:induction false} EveryCallAllowed(tmp: string, ops: seq<Op>, j: nat) returns (i: nat)
    requires j < |Run(tmp, ops).session.effects| && Run(tmp, ops).session.effects[j].OnPath?
    ensures i < |ops|
    ensures var e := Run(tmp, ops).session.effects[j]; AllowedAt(tmp, ops, i, e.kind, e.path)
  {
    var before, op := ops[..|ops| - 1], ops[|ops| - 1];
    var e, w := Run(tmp, ops).session.effects[j], Run(tmp, before);
    OnlyLinesCall(w, tmp, op);
    if j < |w.session.effects| {
      i := EveryCallAllowed(tmp, before, j);
      AllowedFront(tmp, ops, i, e.kind, e.path);
    } else {
      i := |before|;
      assert ops == before + [op];
      var s' := Step(w, tmp, op).session;
      assert Gained(w.session, s')[j - |w.session.effects|] == e;
      AllowedLast(tmp, before, op, e.kind, e.path);
    }
  }

  // ---------- when a call is made ----------

  /** The call on the path granted for arg, if the session may make it. */
  function Called(s: Session, kind: Kind, may: bool, arg: string): seq<Effect> {
    var path := Resolve(s.phyRoot, s.cwd, arg);
    if s.auth && may && path != "" then [OnPath(kind, path)] else []
  }

  lemma FileCallMade(s: Session, users: seq<User>, tmp: string, kind: Kind, arg: string, env: Env)
    requires kind == DeleteFile || kind == MakeDir || kind == RemoveDir
    ensures Performed(s, users, tmp, FileCall(kind, arg), env).effects ==
            s.effects + Called(s, kind, s.perm.write && arg != "", arg)
  {
    hide Resolve;
  }

  lemma TransferMade(s: Session, users: seq<User>, tmp: string, kind: Kind, arg: string, env: Env)
    requires s.pasv == s.dataSock.Some?
    requires kind == ListDir || kind == ReadFile || kind == WriteFile
    ensures var may := match kind
              case ListDir => s.perm.read
              case ReadFile => s.perm.read && arg != ""
              case _ => s.perm.write && arg != "";
            Performed(s, users, tmp, Transfer(kind, arg), env).effects ==
            s.effects + Called(s, kind, may && s.dataSock.Some? && env.peer, arg)
  {
    hide Resolve;
  }

  /** After every run, DELE, RMD and MKD make their call exactly when they may. */
  lemma FileLines(tmp: string, ops: seq<Op>, line: string, word: string, arg: string, env: Env)
    requires Reads(line, word, arg)
    ensures var s := Run(tmp, ops).session;
            var effects, may := After(tmp, ops, line, env).effects, s.perm.write && arg != "";
            && (Spells(word, "DELE") ==> effects == s.effects + Called(s, DeleteFile, may, arg))
            && (Spells(word, "RMD") ==> effects == s.effects + Called(s, RemoveDir, may, arg))
            && (Spells(word, "MKD") ==> effects == s.effects + Called(s, MakeDir, may, arg))
  {
    hide Spells, Performed, Run, Called, Parse;
    var w := Run(tmp, ops);
    AfterLine(tmp, ops, line, env);
    FileWords(line, word, arg);
    FileCallMade(w.session, w.users, tmp, DeleteFile, arg, env);
    FileCallMade(w.session, w.users, tmp, RemoveDir, arg, env);
    FileCallMade(w.session, w.users, tmp, MakeDir, arg, env);
  }

  /** And LIST, RETR and STOR, when moreover a listener is pending and the peer connects to it. */
  lemma TransferLines(tmp: string, ops: seq<Op>, line: string, word: string, arg: string, env: Env)
    requires Reads(line, word, arg)
    ensures var s := Run(tmp, ops).session;
            var effects, data := After(tmp, ops, line, env).effects, s.dataSock.Some? && env.peer;
            && (Spells(word, "LIST") ==> effects == s.effects + Called(s, ListDir, s.perm.read && data, arg))
            && (Spells(word, "RETR") ==>
                  effects == s.effects + Called(s, ReadFile, s.perm.read && arg != "" && data, arg))
            && (Spells(word, "STOR") ==>
                  effects == s.effects + Called(s, WriteFile, s.perm.write && arg != "" && data, arg))
  {
    hide Spells, Performed, Run, Called, Parse;
    var w := Run(tmp, ops);
    AfterLine(tmp, ops, line, env);
    ListWords(line, word, arg);
    TransferWords(line, word, arg);
    ListenersBalanced(tmp, ops);
    TransferMade(w.session, w.users, tmp, ListDir, arg, env);
    TransferMade(w.session, w.users, tmp, ReadFile, arg, env);
    TransferMade(w.session, w.users, tmp, WriteFile, arg, env);
  }

  // ---------- answers ----------

  /** The session after an answer and nothing else; a closed connection gets none. */
  function Answered(s: Session, code: nat): Session {
    s.(replies := s.replies + if s.open then [code] else [])
  }

  /** Without a login: all but USER, PASS, QUIT, NOOP, FEAT and unknown commands are answered 530 and do nothing. */
  lemma LoginFirst(s: Session, users: seq<User>, tmp: string, c: Command, env: Env)
    requires !s.auth && !c.Name? && !c.Password? && !c.Quit? && !c.Answer?
    ensures Performed(s, users, tmp, c, env) == Answered(s, 530)
  {
  }

  /** With a login but without the bit it needs, a command is answered 550 and does nothing. */
  lemma PermissionFirst(s: Session, users: seq<User>, tmp: string, c: Command, env: Env)
    requires s.auth
    requires || (c.FileCall? && (c.kind == DeleteFile || c.kind == MakeDir || c.kind == RemoveDir) && !s.perm.write)
             || (c.Transfer? && c.kind == WriteFile && !s.perm.write)
             || (c.Transfer? && (c.kind == ListDir || c.kind == ReadFile) && !s.perm.read)
             || (c.ChangeTo? && !s.perm.read)
    ensures Performed(s, users, tmp, c, env) == Answered(s, 550)
  {
  }

  /** A file command that may be served: 501 without an argument, 550 off the root, or the outcome of its call. */
  lemma FileCallAnswer(s: Session, users: seq<User>, tmp: string, kind: Kind, arg: string, env: Env)
    requires s.auth && s.perm.write && (kind == DeleteFile || kind == MakeDir || kind == RemoveDir)
    ensures var path, s' := Resolve(s.phyRoot, s.cwd, arg), Performed(s, users, tmp, FileCall(kind, arg), env);
            var called := s.(effects := s.effects + [OnPath(kind, path)]);
            && (arg == "" ==> s' == Answered(s, 501))
            && (arg != "" && path == "" ==> s' == Answered(s, 550))
            && (arg != "" && path != "" && !env.ok ==> s' == Answered(called, 550))
            && (arg != "" && path != "" && env.ok && kind == MakeDir ==> s' == Answered(called, 257))
            && (arg != "" && path != "" && env.ok && kind != MakeDir ==> s' == Answered(called, 250))
  {
    hide Resolve;
  }

  /** A transfer that may be served: 150 once the path is granted, then 425, 226 or 550; the listener is used up. */
  lemma TransferAnswer(s: Session, users: seq<User>, tmp: string, kind: Kind, arg: string, env: Env)
    requires s.auth && s.pasv == s.dataSock.Some?
    requires (s.perm.read && (kind == ListDir || kind == ReadFile)) || (s.perm.write && kind == WriteFile)
    ensures var path, s' := Resolve(s.phyRoot, s.cwd, arg), Performed(s, users, tmp, Transfer(kind, arg), env);
            var data := s.dataSock.Some? && env.peer;
            && (arg == "" && kind != ListDir ==> s' == Answered(s, 501))
            && ((arg != "" || kind == ListDir) && path == "" ==> s' == Answered(s, 550))
            && ((arg != "" || kind == ListDir) && path != "" ==>
                  && s'.dataSock == None && !s'.pasv && s'.open == s.open
                  && s'.replies == Answered(Answered(s, 150),
                       if !data then 425 else if kind == ListDir || env.ok then 226 else 550).replies)
  {
    hide Resolve;
  }

  /** After every run, the commands with a fixed answer. */
  lemma FixedAnswers(tmp: string, ops: seq<Op>, line: string, word: string, arg: string, env: Env)
    requires Reads(line, word, arg)
    ensures var s, s' := Run(tmp, ops).session, After(tmp, ops, line, env);
            && (Spells(word, "SYST") ==> s' == Answered(s, if s.auth then 215 else 530))
            && (Spells(word, "PWD") ==> s' == Answered(s, if s.auth then 257 else 530))
            && (Spells(word, "TYPE") ==> s' == Answered(s, if s.auth then 200 else 530))
            && (Spells(word, "NOOP") ==> s' == Answered(s, 200))
            && (Spells(word, "FEAT") ==> s' == Answered(s, 211))
            && ((forall i :: 0 <= i < |NAMES| ==> !Spells(word, NAMES[i])) ==> s' == Answered(s, 502))
  {
    hide Spells, Run, Parse;
    AfterLine(tmp, ops, line, env);
    QueryWords(line, word, arg);
    NoopWord(line, word, arg);
    FeatWord(line, word, arg);
    if forall i :: 0 <= i < |NAMES| ==> !Spells(word, NAMES[i]) {
      OtherWords(line, word, arg);
    }
  }

  /** QUIT is answered 221, and then the connection and a pending listener are closed; the rest stays. */
  lemma QuitCloses(tmp: string, ops: seq<Op>, line: string, word: string, arg: string, env: Env)
    requires Reads(line, word, arg) && Spells(word, "QUIT")
    ensures var s, s' := Run(tmp, ops).session, After(tmp, ops, line, env);
            && !s'.open && s'.dataSock == None && !s'.pasv && s'.replies == Answered(s, 221).replies
            && s'.events == s.events + (if s.dataSock.Some? then [Closed(s.dataSock.value)] else [])
            && s'.effects == s.effects && s'.cwd == s.cwd && Rights(s') == Rights(s)
  {
    hide Spells, Run, Parse;
    AfterLine(tmp, ops, line, env);
    LoginWords(line, word, arg);
  }

  /** PASV closes a pending listener and is answered 227 exactly when it leaves a new one. */
  lemma PasvOpens(s: Session, users: seq<User>, tmp: string, env: Env)
    requires s.auth && s.pasv == s.dataSock.Some?
    ensures var s' := Performed(s, users, tmp, Passive, env);
            var cleared := s.events + if s.dataSock.Some? then [Closed(s.dataSock.value)] else [];
            && s'.pasv == s'.dataSock.Some? == env.pasv.Listening?
            && s'.replies == Answered(s, if env.pasv.Listening? then 227 else 425).replies
            && (env.pasv.Listening? ==> s'.dataSock == Some(env.pasv.l) && s'.events == cleared + [Opened(env.pasv.l)])
            && (env.pasv.NoSocket? ==> s'.events == cleared)
            && (env.pasv.SetupFailed? ==> s'.events == cleared + [Opened(env.pasv.l), Closed(env.pasv.l)])
  {
  }
}
