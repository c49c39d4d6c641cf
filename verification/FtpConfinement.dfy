/**
 Which paths an FTP session reaches over whole runs: those of the commands, which go
 through `resolve`, and that of the directory made at login, which does not.
 */
module FtpConfinement {
  import opened Sequences
  import opened Paths
  import opened Confinement
  import opened CommandLines
  import opened FtpSession
  import opened FtpRuns

  predicate TmpOk(tmp: string) {
    tmp != "" && tmp[0] == SEP && '\\' !in tmp
  }

  /** A path granted under an account's root is canonical; a root of its own keeps it below the temporary directory. */
  lemma GrantedUnderRoot(tmp: string, u: User, cwd: string, target: string)
    requires TmpOk(tmp) && Resolve(RootOf(tmp, u), cwd, target) != ""
    ensures var r := Resolve(RootOf(tmp, u), cwd, target);
            && r[0] == SEP && CanonicalDir(r[1..]) && tmp <= r
            && (RootOf(tmp, u) != tmp ==> tmp + [SEP] <= r)
  {
    var root := RootOf(tmp, u);
    TranslateNothing(tmp);
    TranslateNothing(tmp + [SEP]);
    ResolvedIsCanonical(root, cwd, target);
    if root != tmp {
      var below := root[|tmp| + 1..];
      assert root == tmp + [SEP] + below;
      TranslateConcat(tmp + [SEP], below);
    }
  }

  /**
   The path of a command is canonical; that of the directory made at login starts with
   the temporary directory as it is written.
   */
  ghost predicate PathOk(tmp: string, e: Effect) {
    match e
    case OnPath(_, path) => tmp <= path && path != "" && path[0] == SEP && CanonicalDir(path[1..])
    case MakeRoot(path) => tmp + [SEP] <= path
  }

  ghost predicate Confined(s: Session, tmp: string) {
    forall i :: 0 <= i < |s.effects| ==> PathOk(tmp, s.effects[i])
  }

  /** A command's call, and the account whose root is made. */
  lemma OneEffect(s: Session, users: seq<User>, tmp: string, c: Command, env: Env) returns (e: Effect)
    requires Performed(s, users, tmp, c, env).effects != s.effects
    ensures Performed(s, users, tmp, c, env).effects == s.effects + [e]
    ensures Licensed(s, c, e) || (LoginEffect(s, users, tmp, c, e) && OwnRoot(tmp, FindAccount(users, s.user).value))
  {
    EffectsLicensed(s, users, tmp, c, env);
    e :| Performed(s, users, tmp, c, env).effects == s.effects + [e] &&
        (Licensed(s, c, e) || LoginEffect(s, users, tmp, c, e));
    if c.Password? {
      OnlyOwnRootsAreMade(s, users, tmp, c.arg);
    }
  }

  predicate OwnRoot(tmp: string, u: User) {
    RootOf(tmp, u) != tmp
  }

  lemma OnlyOwnRootsAreMade(s: Session, users: seq<User>, tmp: string, arg: string)
    requires PassAccepted(s, users, arg) && AfterPass(s, users, tmp, arg).effects != s.effects
    ensures OwnRoot(tmp, FindAccount(users, s.user).value)
  {
  }

  lemma ConfinedLine(w: World, tmp: string, c: Command, env: Env)
    requires TmpOk(tmp) && Sound(w, tmp) && Confined(w.session, tmp)
    ensures Confined(Performed(w.session, w.users, tmp, c, env), tmp)
  {
    hide Performed, Resolve;
    var s := w.session;
    if Performed(s, w.users, tmp, c, env).effects != s.effects {
      var e := OneEffect(s, w.users, tmp, c, env);
      if Licensed(s, c, e) {
        GrantedUnderRoot(tmp, w.login.value, s.cwd, c.arg);
      }
      assert PathOk(tmp, e);
    }
  }

  /**
   In every run, whatever the roots of the accounts: every path of a command is canonical
   and has the server's temporary directory as a prefix, and so has, as written, the
   directory made at a login.
   */
  lemma {:induction false} EveryPathIsConfined(tmp: string, ops: seq<Op>)
    requires TmpOk(tmp)
    ensures Confined(Run(tmp, ops).session, tmp)
  {
    if ops != [] {
      var before, op := ops[..|ops| - 1], ops[|ops| - 1];
      EveryPathIsConfined(tmp, before);
      LoginSoundness(tmp, before);
      if op.Line? {
        ConfinedLine(Run(tmp, before), tmp, Parse(op.line), op.env);
      }
    }
  }

  // ---------- inside, component by component ----------

  lemma CanonicalLands(path: string)
    requires path != "" && path[0] == SEP && CanonicalDir(path[1..])
    ensures Lands(path) == Parts(path[1..])
  {
    var dir := path[1..];
    assert path == "" + [SEP] + dir;
    SplitAtSeparator("", dir, SEP);
    var tail := Split(dir, SEP);
    assert ([""] + tail)[1..] == tail && PushClamped([], "") == [];
    assert WalkClamped([], [""] + tail) == WalkClamped([], tail);
    ClampedNames([], tail);
    if dir == "" {
      assert tail == [""] && tail[1..] == [];
    } else {
      ClimbPlain([], tail);
      assert [] + tail == tail;
    }
  }

  lemma BelowIsInside(tmp: string, path: string)
    requires CanonicalBase(tmp) && path != "" && path[0] == SEP && tmp + [SEP] <= path
    ensures Inside(tmp, Parts(path[1..]))
  {
    if tmp[1..] != "" {
      var rest := path[|tmp| + 1..];
      assert path == tmp + [SEP] + rest;
      assert path[1..] == tmp[1..] + [SEP] + rest;
      SplitAtSeparator(tmp[1..], rest, SEP);
    }
  }

  /** The account's root as the path under the temporary directory that is handed to `mkdir`. */
  function OwnPart(u: User): string {
    if u.root != "" && u.root[0] == '/' then u.root[1..] else u.root
  }

  lemma OwnRootIsUnder(tmp: string, u: User)
    requires OwnRoot(tmp, u)
    ensures RootOf(tmp, u) == Under(tmp, OwnPart(u))
  {
    assert tmp + "/" + OwnPart(u) == tmp + ([SEP] + OwnPart(u));
  }

  /** The request as the session makes it: how far it climbs, and the names it then goes down. */
  function Request(s: Session, arg: string): (nat, seq<string>) {
    Climb([], Relative(s.cwd, arg))
  }

  /**
   The two ways out of the temporary directory, to be read off before the command: a
   login to an account whose root does not lead back into it, and a request that
   sidesteps in a session whose root is the temporary directory itself.
   */
  predicate Escapes(s: Session, users: seq<User>, tmp: string, c: Command)
    requires tmp != ""
  {
    match c
    case Password(arg) =>
      && PassAccepted(s, users, arg)
      && var u := FindAccount(users, s.user).value; OwnRoot(tmp, u) && !Returning(BaseParts(tmp), OwnPart(u))
    case Transfer(_, arg) => s.phyRoot == tmp && Sidesteps(BaseParts(tmp), Request(s, arg).0, Request(s, arg).1)
    case FileCall(_, arg) => s.phyRoot == tmp && Sidesteps(BaseParts(tmp), Request(s, arg).0, Request(s, arg).1)
    case _ => false
  }

  lemma MadePlace(s: Session, users: seq<User>, tmp: string, c: Command, e: Effect)
    requires CanonicalBase(tmp) && LoginEffect(s, users, tmp, c, e) && OwnRoot(tmp, FindAccount(users, s.user).value)
    ensures Inside(tmp, Lands(e.path)) <==> !Escapes(s, users, tmp, c)
  {
    var u := FindAccount(users, s.user).value;
    OwnRootIsUnder(tmp, u);
    MadeInsideExactly(tmp, OwnPart(u));
  }

  lemma GrantedPlace(tmp: string, u: User, cwd: string, arg: string)
    requires CanonicalBase(tmp) && Resolve(RootOf(tmp, u), cwd, arg) != ""
    ensures var r := Resolve(RootOf(tmp, u), cwd, arg);
            var (up, names) := Climb([], Relative(cwd, arg));
            Inside(tmp, Lands(r)) <==> OwnRoot(tmp, u) || !Sidesteps(BaseParts(tmp), up, names)
  {
    hide Resolve;
    var r := Resolve(RootOf(tmp, u), cwd, arg);
    GrantedUnderRoot(tmp, u, cwd, arg);
    CanonicalLands(r);
    if OwnRoot(tmp, u) {
      BelowIsInside(tmp, r);
    } else {
      OutsideExactly(tmp, cwd, arg);
    }
  }

  /** A command's call is outside the temporary directory exactly when the command is one of the two. */
  lemma PlaceExactly(w: World, tmp: string, c: Command, env: Env, e: Effect)
    requires CanonicalBase(tmp) && Sound(w, tmp)
    requires Performed(w.session, w.users, tmp, c, env).effects == w.session.effects + [e]
    ensures Inside(tmp, Lands(e.path)) <==> !Escapes(w.session, w.users, tmp, c)
  {
    hide Performed, Resolve;
    var s := w.session;
    assert (s.effects + [e])[|s.effects|] == e;
    var e' := OneEffect(s, w.users, tmp, c, env);
    assert e == (s.effects + [e'])[|s.effects|];
    if Licensed(s, c, e) {
      GrantedPlace(tmp, w.login.value, s.cwd, c.arg);
    } else {
      MadePlace(s, w.users, tmp, c, e);
    }
  }

  predicate Calls(w: World, tmp: string, op: Op) {
    Step(w, tmp, op).session.effects != w.session.effects
  }

  /** No line of the run that made a call was one of the two. */
  ghost predicate NoEscape(tmp: string, ops: seq<Op>)
    requires tmp != ""
  {
    ops == [] ||
    (var before, op := ops[..|ops| - 1], ops[|ops| - 1];
     && NoEscape(tmp, before)
     && (op.Line? && Calls(Run(tmp, before), tmp, op) ==>
         !Escapes(Run(tmp, before).session, Run(tmp, before).users, tmp, Parse(op.line))))
  }

  ghost predicate AllInside(tmp: string, effects: seq<Effect>)
    requires tmp != ""
  {
    forall i :: 0 <= i < |effects| ==> Inside(tmp, Lands(effects[i].path))
  }

  lemma AllInsideSnoc(tmp: string, effects: seq<Effect>, e: Effect)
    requires tmp != ""
    ensures AllInside(tmp, effects + [e]) <==> AllInside(tmp, effects) && Inside(tmp, Lands(e.path))
  {
    var all := effects + [e];
    assert all[|effects|] == e;
    if AllInside(tmp, all) {
      forall i | 0 <= i < |effects| ensures Inside(tmp, Lands(effects[i].path)) {
        assert all[i] == effects[i];
      }
    }
  }

  /**
   Over whole runs and both kinds of calls: everything a session touches lies inside the
   temporary directory if and only if none of its calls came from one of the two.
   */
  lemma {:induction false} ConfinedExactly(tmp: string, ops: seq<Op>)
    requires CanonicalBase(tmp)
    ensures AllInside(tmp, Run(tmp, ops).session.effects) <==> NoEscape(tmp, ops)
  {
    if ops != [] {
      var before, op := ops[..|ops| - 1], ops[|ops| - 1];
      ConfinedExactly(tmp, before);
      LoginSoundness(tmp, before);
      if op.Line? && Calls(Run(tmp, before), tmp, op) {
        CallExactly(Run(tmp, before), tmp, Parse(op.line), op.env);
      }
    }
  }

  lemma CallExactly(w: World, tmp: string, c: Command, env: Env)
    requires CanonicalBase(tmp) && Sound(w, tmp)
    requires Performed(w.session, w.users, tmp, c, env).effects != w.session.effects
    ensures AllInside(tmp, Performed(w.session, w.users, tmp, c, env).effects) <==>
            AllInside(tmp, w.session.effects) && !Escapes(w.session, w.users, tmp, c)
  {
    hide Performed;
    var e := OneEffect(w.session, w.users, tmp, c, env);
    PlaceExactly(w, tmp, c, env, e);
    AllInsideSnoc(tmp, w.session.effects, e);
  }

  /**
   The same for the account's own root, if that is canonical: a command of a session is
   served outside it exactly when the request sidesteps.
   */
  lemma OwnRootExactly(w: World, tmp: string, c: Command, env: Env, e: Effect)
    requires Sound(w, tmp) && CanonicalBase(w.session.phyRoot) && (c.Transfer? || c.FileCall?)
    requires Performed(w.session, w.users, tmp, c, env).effects == w.session.effects + [e]
    ensures var root := w.session.phyRoot;
            var (up, names) := Request(w.session, c.arg);
            Inside(root, Lands(e.path)) <==> !Sidesteps(BaseParts(root), up, names)
  {
    hide Performed, Resolve;
    var s := w.session;
    assert (s.effects + [e])[|s.effects|] == e;
    var e' := OneEffect(s, w.users, tmp, c, env);
    assert e == (s.effects + [e'])[|s.effects|];
    OutsideExactly(s.phyRoot, s.cwd, c.arg);
    TranslateNothing(s.phyRoot);
    ResolvedIsCanonical(s.phyRoot, s.cwd, c.arg);
    CanonicalLands(e.path);
  }

  // ---------- runs that leave ----------

  lemma RunSnoc(tmp: string, ops: seq<Op>, op: Op)
    ensures Run(tmp, ops + [op]) == Step(Run(tmp, ops), tmp, op)
  {
    assert (ops + [op])[..|ops|] == ops;
  }

  lemma UserLine(arg: string)
    ensures Parse(CommandLine("USER", arg)) == Name(arg)
  {
    WordAndArgument("USER", arg);
    assert Upper("USER") == "USER";
  }

  lemma PassLine(arg: string)
    ensures Parse(CommandLine("PASS", arg)) == Password(arg)
  {
    WordAndArgument("PASS", arg);
    assert Upper("PASS") == "PASS";
  }

  lemma DeleLine(arg: string)
    ensures Parse(CommandLine("DELE", arg)) == FileCall(DeleteFile, arg)
  {
    WordAndArgument("DELE", arg);
    assert Upper("DELE") == "DELE";
  }

  function Account(root: string): User {
    User("u", "p", root, Perm(true, true), false)
  }

  function Entered(tmp: string, root: string, replies: seq<nat>): Session {
    Session(true, "u", "", RootOf(tmp, Account(root)), Perm(true, true), true, None, false, replies,
            [MakeRoot(RootOf(tmp, Account(root)))], [])
  }

  /** An account is added, and a client logs in to it. */
  lemma LoginRun(tmp: string, root: string, env: Env) returns (ops: seq<Op>)
    requires OwnRoot(tmp, Account(root))
    ensures Run(tmp, ops) == World(Entered(tmp, root, [331, 230]), [Account(root)], Some(Account(root)))
  {
    var add := AddUser("u", "p", root, Perm(true, true));
    var user, pass := Line(CommandLine("USER", "u"), env), Line(CommandLine("PASS", "p"), env);
    hide Step;
    RunSnoc(tmp, [], add);
    assert [] + [add] == [add];
    RunSnoc(tmp, [add], user);
    RunSnoc(tmp, [add] + [user], pass);
    AddStep(tmp, root);
    UserStep(tmp, root, env);
    PassStep(tmp, root, env);
    ops := [add] + [user] + [pass];
  }

  lemma UserStep(tmp: string, root: string, env: Env)
    ensures Step(World(NEW_SESSION, [Account(root)], None), tmp, Line(CommandLine("USER", "u"), env)) ==
            World(NEW_SESSION.(user := "u", replies := [331]), [Account(root)], None)
  {
    hide Parse, CommandLine;
    UserLine("u");
  }

  lemma PassStep(tmp: string, root: string, env: Env)
    requires OwnRoot(tmp, Account(root))
    ensures var w := World(NEW_SESSION.(user := "u", replies := [331]), [Account(root)], None);
            Step(w, tmp, Line(CommandLine("PASS", "p"), env)) ==
            World(Entered(tmp, root, [331, 230]), [Account(root)], Some(Account(root)))
  {
    hide Parse, CommandLine, RootOf;
    PassLine("p");
  }

  lemma AddStep(tmp: string, root: string)
    ensures Step(World(NEW_SESSION, [], None), tmp, AddUser("u", "p", root, Perm(true, true))) ==
            World(NEW_SESSION, [Account(root)], None)
  {
  }

  /** A login to an account whose root is `../x` makes a directory beside the temporary one. */
  lemma RootMadeBeside(tmp: string, x: string, env: Env) returns (ops: seq<Op>)
    requires CanonicalBase(tmp) && BaseParts(tmp) != [] && Plain(x) && '\\' !in x
    ensures var b, effects := BaseParts(tmp), Run(tmp, ops).session.effects;
            && effects == [MakeRoot(Under(tmp, ".." + ([SEP] + x)))]
            && Lands(effects[0].path) == b[..|b| - 1] + [x]
            && (Inside(tmp, Lands(effects[0].path)) <==> x == Last(b))
  {
    var root := ".." + ([SEP] + x);
    assert root[0] == '.';
    OwnRootIsUnder(tmp, Account(root));
    MadeBeside(tmp, x);
    ops := LoginRun(tmp, root, env);
  }

  lemma UnderIsCanonical(tmp: string, name: string)
    requires CanonicalBase(tmp) && BaseParts(tmp) != [] && Plain(name) && '\\' !in name
    ensures CanonicalBase(Under(tmp, name)) && BaseParts(Under(tmp, name)) == BaseParts(tmp) + [name]
  {
    var base := Under(tmp, name);
    assert base[1..] == tmp[1..] + [SEP] + name;
    SplitAtSeparator(tmp[1..], name, SEP);
    SplitPlain(name, SEP);
  }

  /** A client whose account has the root `name` deletes a file beside it, whose name only starts like that. */
  lemma NeighbourReached(tmp: string, name: string, more: string, env: Env) returns (ops: seq<Op>)
    requires CanonicalBase(tmp) && BaseParts(tmp) != [] && Plain(name) && '\\' !in name
    requires more != "" && SEP !in more && '\\' !in more
    ensures var s := Run(tmp, ops).session;
            && s.phyRoot == Under(tmp, name)
            && |s.effects| == 2 && s.effects[1].OnPath? && s.effects[1].kind == DeleteFile
            && Lands(s.effects[1].path) == BaseParts(tmp) + [name + more]
            && !Inside(s.phyRoot, Lands(s.effects[1].path))
  {
    var base := Under(tmp, name);
    UnderIsCanonical(tmp, name);
    OwnRootIsUnder(tmp, Account(name));
    var arg := Beside(base, more);
    NeighbourLands(tmp, name, more);
    var login := LoginRun(tmp, name, env);
    var dele := Line(CommandLine("DELE", arg), env);
    RunSnoc(tmp, login, dele);
    DeleStep(Run(tmp, login), tmp, arg, env);
    ops := login + [dele];
  }

  lemma NeighbourLands(tmp: string, name: string, more: string)
    requires CanonicalBase(tmp) && BaseParts(tmp) != [] && PlainName(name)
    requires more != "" && SEP !in more && '\\' !in more
    requires CanonicalBase(Under(tmp, name)) && BaseParts(Under(tmp, name)) == BaseParts(tmp) + [name]
    ensures var base := Under(tmp, name);
            var r := Resolve(base, "", Beside(base, more));
            r != "" && Lands(r) == BaseParts(tmp) + [name + more] && !Inside(base, Lands(r))
  {
    hide Resolve, Beside;
    var base := Under(tmp, name);
    var b, arg := BaseParts(base), Beside(base, more);
    assert Last(b) == name && b[..|b| - 1] == BaseParts(tmp);
    NeighboursGranted(base, more);
    TranslateNothing(base);
    ResolvedIsCanonical(base, "", arg);
    CanonicalLands(Resolve(base, "", arg));
  }

  lemma DeleStep(w: World, tmp: string, arg: string, env: Env)
    requires w.session.auth && w.session.perm.write && arg != "" && Resolve(w.session.phyRoot, w.session.cwd, arg) != ""
    ensures var s := Step(w, tmp, Line(CommandLine("DELE", arg), env)).session;
            && s.phyRoot == w.session.phyRoot
            && s.effects == w.session.effects + [OnPath(DeleteFile, Resolve(w.session.phyRoot, w.session.cwd, arg))]
  {
    hide Parse, CommandLine, Resolve;
    DeleLine(arg);
  }
}
