/**
 One FTP session (sections 4.1.1 to 4.1.3 of RFC 959): the commands that `dispatch`
 knows, what each does to the client's fields, and what it does outside. The class
 methods change the fields as the source does; each is proved against a function of the
 session's state, and the functions are what whole runs are made of.
 */
module FtpSession {
  import opened Sequences
  import opened Paths
  import opened CommandLines

  /** The two bits of `ftp_permission`. */
  datatype Perm = Perm(read: bool, write: bool)

  datatype User = User(name: string, pass: string, root: string, perm: Perm, anon: bool)

  datatype Kind = ListDir | ReadFile | WriteFile | DeleteFile | MakeDir | RemoveDir

  datatype Effect =
    | OnPath(kind: Kind, path: string)   // a system call on a host path
    | MakeRoot(path: string)             // the directory a login creates for its user

  /** Data sockets: a listener is opened by PASV and closed by whoever is done with it. */
  datatype Event = Opened(l: nat) | Closed(l: nat)

  datatype PasvOutcome = NoSocket | SetupFailed(l: nat) | Listening(l: nat)

  /** What the operating system answers during one command. */
  datatype Env = Env(pasv: PasvOutcome, peer: bool, ok: bool)

  /** The fields of `Client`, and the record of what has left the session. */
  datatype Session = Session(
    open: bool, user: string, cwd: string, phyRoot: string, perm: Perm, auth: bool,
    dataSock: Option<nat>, pasv: bool,
    replies: seq<nat>, effects: seq<Effect>, events: seq<Event>)

  const NEW_SESSION := Session(true, "", "", "", Perm(false, false), false, None, false, [], [], [])

  // ---------- users ----------

  function FindUser(users: seq<User>, arg: string): Option<User> {
    if users == [] then None
    else if users[0].name == arg || (users[0].anon && arg == "anonymous") then Some(users[0])
    else FindUser(users[1..], arg)
  }

  /** The first password account of that name. */
  function FindAccount(users: seq<User>, name: string): Option<User> {
    if users == [] then None
    else if users[0].name == name && !users[0].anon then Some(users[0])
    else FindAccount(users[1..], name)
  }

  /** `add_user` overwrites the account of that name, or appends one. */
  function WithAccount(users: seq<User>, u: User): seq<User> {
    if users == [] then [u]
    else if users[0].name == u.name && !users[0].anon then [u] + users[1..]
    else [users[0]] + WithAccount(users[1..], u)
  }

  /** The host directory that a login makes the session's root. */
  function RootOf(tmp: string, u: User): string {
    if u.anon || u.root == "" || u.root == "/" then tmp
    else tmp + "/" + (if u.root[0] == '/' then u.root[1..] else u.root)
  }

  // ---------- what each command does ----------

  function Replied(s: Session, code: nat): Session {
    if s.open then s.(replies := s.replies + [code]) else s
  }

  function PasvClosed(s: Session): Session {
    match s.dataSock
    case None => s.(pasv := false)
    case Some(l) => s.(dataSock := None, pasv := false, events := s.events + [Closed(l)])
  }

  function ClientClosed(s: Session): Session {
    PasvClosed(s.(open := false))
  }

  function LoggedIn(s: Session, tmp: string, u: User): Session {
    s.(auth := true, perm := u.perm, phyRoot := RootOf(tmp, u))
  }

  function AfterUser(s: Session, users: seq<User>, tmp: string, arg: string): Session {
    match FindUser(users, arg)
    case None => Replied(s, 530)
    case Some(u) =>
      var named := s.(user := u.name);
      if u.anon then Replied(LoggedIn(named, tmp, u), 230) else Replied(named, 331)
  }

  predicate PassAccepted(s: Session, users: seq<User>, arg: string) {
    !s.auth && s.user != "" && FindAccount(users, s.user).Some? && FindAccount(users, s.user).value.pass == arg
  }

  function AfterPass(s: Session, users: seq<User>, tmp: string, arg: string): Session {
    if s.auth then Replied(s, 230)
    else if s.user == "" then Replied(s, 503)
    else if !PassAccepted(s, users, arg) then Replied(s, 530)
    else
      var u := FindAccount(users, s.user).value;
      var made := if RootOf(tmp, u) == tmp then s else s.(effects := s.effects + [MakeRoot(RootOf(tmp, u))]);
      Replied(LoggedIn(made, tmp, u), 230)
  }

  function AfterPasv(s: Session, env: Env): Session {
    if !s.auth then Replied(s, 530)
    else
      var t := PasvClosed(s);
      match env.pasv
      case NoSocket => Replied(t, 425)
      case SetupFailed(l) => Replied(t.(events := t.events + [Opened(l), Closed(l)]), 425)
      case Listening(l) => Replied(t.(dataSock := Some(l), pasv := true, events := t.events + [Opened(l)]), 227)
  }

  predicate NeedsWrite(kind: Kind) {
    kind.WriteFile? || kind.DeleteFile? || kind.MakeDir? || kind.RemoveDir?
  }

  predicate Permitted(perm: Perm, kind: Kind) {
    if NeedsWrite(kind) then perm.write else perm.read
  }

  /** `accept_data`: whatever comes of it, the listener is used up. */
  function DataAccepted(s: Session): Session {
    if s.pasv && s.dataSock.Some? then PasvClosed(s) else s
  }

  predicate HasData(s: Session, env: Env) {
    s.pasv && s.dataSock.Some? && env.peer
  }

  function AfterTransfer(s: Session, env: Env, kind: Kind, arg: string): Session {
    if !s.auth then Replied(s, 530)
    else if !Permitted(s.perm, kind) then Replied(s, 550)
    else if arg == "" && !kind.ListDir? then Replied(s, 501)
    else
      var path := Resolve(s.phyRoot, s.cwd, arg);
      if path == "" then Replied(s, 550)
      else
        var t := DataAccepted(Replied(s, 150));
        if !HasData(s, env) then Replied(t, 425)
        else
          var done := t.(effects := t.effects + [OnPath(kind, path)]);
          Replied(done, if kind.ListDir? || env.ok then 226 else 550)
  }

  function AfterFileOp(s: Session, env: Env, kind: Kind, arg: string): Session {
    if !s.auth then Replied(s, 530)
    else if !Permitted(s.perm, kind) then Replied(s, 550)
    else if arg == "" then Replied(s, 501)
    else
      var path := Resolve(s.phyRoot, s.cwd, arg);
      if path == "" then Replied(s, 550)
      else
        var done := s.(effects := s.effects + [OnPath(kind, path)]);
        Replied(done, if !env.ok then 550 else if kind.MakeDir? then 257 else 250)
  }

  function AfterCwd(s: Session, arg: string): Session {
    if !s.auth then Replied(s, 530)
    else if !s.perm.read then Replied(s, 550)
    else Replied(s.(cwd := ChangeDir(s.cwd, arg)), 250)
  }

  function OkIf(s: Session, code: nat): Session {
    Replied(s, if s.auth then code else 530)
  }

  /** The command a line stands for; `Query` needs a login, `Answer` does not. */
  datatype Command =
    | Name(arg: string)
    | Password(arg: string)
    | Query(code: nat)
    | Passive
    | Transfer(kind: Kind, arg: string)
    | FileCall(kind: Kind, arg: string)
    | ChangeTo(arg: string)
    | Quit
    | Answer(code: nat)

  function Parse(line: string): (c: Command)
    ensures c.Transfer? ==> c.kind.ListDir? || c.kind.ReadFile? || c.kind.WriteFile?
    ensures c.FileCall? ==> c.kind.DeleteFile? || c.kind.MakeDir? || c.kind.RemoveDir?
    ensures c.Query? || c.Answer? ==> c.code != 226 && c.code != 227
  {
    var cmd, arg := CommandWord(line), Argument(line);
    if cmd == "USER" then Name(arg)
    else if cmd == "PASS" then Password(arg)
    else if cmd == "SYST" then Query(215)
    else if cmd == "PWD" then Query(257)
    else if cmd == "TYPE" then Query(200)
    else if cmd == "PASV" then Passive
    else if cmd == "LIST" then Transfer(ListDir, arg)
    else if cmd == "RETR" then Transfer(ReadFile, arg)
    else if cmd == "STOR" then Transfer(WriteFile, arg)
    else if cmd == "DELE" then FileCall(DeleteFile, arg)
    else if cmd == "RMD" then FileCall(RemoveDir, arg)
    else if cmd == "MKD" then FileCall(MakeDir, arg)
    else if cmd == "CWD" then ChangeTo(arg)
    else if cmd == "CDUP" then ChangeTo("..")
    else if cmd == "QUIT" then Quit
    else if cmd == "NOOP" then Answer(200)
    else if cmd == "FEAT" then Answer(211)
    else Answer(502)
  }

  function Performed(s: Session, users: seq<User>, tmp: string, c: Command, env: Env): Session {
    match c
    case Name(arg) => AfterUser(s, users, tmp, arg)
    case Password(arg) => AfterPass(s, users, tmp, arg)
    case Query(code) => OkIf(s, code)
    case Passive => AfterPasv(s, env)
    case Transfer(kind, arg) => AfterTransfer(s, env, kind, arg)
    case FileCall(kind, arg) => AfterFileOp(s, env, kind, arg)
    case ChangeTo(arg) => AfterCwd(s, arg)
    case Quit => ClientClosed(Replied(s, 221))
    case Answer(code) => Replied(s, code)
  }

  // ---------- the classes ----------

  class Client {
    var open: bool
    var user: string
    var cwd: string
    var phyRoot: string
    var perm: Perm
    var auth: bool
    var dataSock: Option<nat>
    var pasv: bool
    var replies: seq<nat>
    var effects: seq<Effect>
    var events: seq<Event>

    constructor ()
      ensures State() == NEW_SESSION
    {
      open, user, cwd, phyRoot := true, "", "", "";
      perm, auth, dataSock, pasv := Perm(false, false), false, None, false;
      replies, effects, events := [], [], [];
    }

    function State(): Session
      reads this
    {
      Session(open, user, cwd, phyRoot, perm, auth, dataSock, pasv, replies, effects, events)
    }

    method Send(code: nat)
      modifies this`replies
      ensures State() == Replied(old(State()), code)
    {
      if open {
        replies := replies + [code];
      }
    }

    method ClosePasv()
      modifies this`dataSock, this`pasv, this`events
      ensures State() == PasvClosed(old(State()))
    {
      if dataSock.Some? {
        events := events + [Closed(dataSock.value)];
        dataSock := None;
      }
      pasv := false;
    }

    method Close()
      modifies this`open, this`dataSock, this`pasv, this`events
      ensures State() == ClientClosed(old(State()))
    {
      open := false;
      ClosePasv();
    }

    method RequireAuth() returns (ok: bool)
      modifies this`replies
      ensures ok == auth && State() == if ok then old(State()) else Replied(old(State()), 530)
    {
      if !auth {
        Send(530);
      }
      ok := auth;
    }

    method RequirePerm(kind: Kind) returns (ok: bool)
      modifies this`replies
      ensures ok == Permitted(perm, kind) && State() == if ok then old(State()) else Replied(old(State()), 550)
    {
      ok := if kind.ListDir? || kind.ReadFile? then perm.read else perm.write;
      if !ok {
        Send(550);
      }
    }

    method AcceptData(peer: bool) returns (accepted: bool)
      modifies this`dataSock, this`pasv, this`events
      ensures State() == DataAccepted(old(State()))
      ensures accepted == (old(pasv) && old(dataSock).Some? && peer)
    {
      if !pasv || dataSock.None? {
        return false;
      }
      events := events + [Closed(dataSock.value)];
      dataSock := None;
      pasv := false;
      accepted := peer;
    }
  }

  class Server {
    var users: seq<User>
    const tmp: string

    constructor (tmp: string)
      ensures users == [] && this.tmp == tmp
    {
      this.tmp := tmp;
      users := [];
    }

    method AddUser(name: string, pass: string, root: string, perm: Perm)
      modifies this`users
      ensures users == WithAccount(old(users), User(name, pass, root, perm, false))
    {
      var u := User(name, pass, root, perm, false);
      var i := 0;
      while i < |users|
        invariant 0 <= i <= |users| && users == old(users)
        invariant WithAccount(users, u) == users[..i] + WithAccount(users[i..], u)
      {
        if users[i].name == name && !users[i].anon {
          users := users[i := u];
          assert users == old(users)[..i] + ([u] + old(users)[i..][1..]);
          return;
        }
        assert users[..i + 1] == users[..i] + [users[i]] && users[i..][1..] == users[i + 1..];
        ConcatAssociative(users[..i], [users[i]], WithAccount(users[i + 1..], u));
        i := i + 1;
      }
      users := users + [u];
    }

    method AddAnonymousUser(root: string, perm: Perm)
      modifies this`users
      ensures users == old(users) + [User("anonymous", "", root, perm, true)]
    {
      users := users + [User("anonymous", "", root, perm, true)];
    }

    method ClearUsers()
      modifies this`users
      ensures users == []
    {
      users := [];
    }

    method UserCmd(client: Client, arg: string)
      modifies client
      ensures client.State() == AfterUser(old(client.State()), users, tmp, arg)
    {
      var i := 0;
      while i < |users|
        invariant 0 <= i <= |users| && client.State() == old(client.State())
        invariant FindUser(users, arg) == FindUser(users[i..], arg)
      {
        var user := users[i];
        assert users[i..][1..] == users[i + 1..];
        if user.name == arg || (user.anon && arg == "anonymous") {
          client.user := user.name;
          if user.anon {
            client.auth := true;
            client.perm := user.perm;
            client.phyRoot := tmp;
            client.Send(230);
            return;
          }
          client.Send(331);
          return;
        }
        i := i + 1;
      }
      client.Send(530);
    }

    method PassCmd(client: Client, arg: string)
      modifies client
      ensures client.State() == AfterPass(old(client.State()), users, tmp, arg)
    {
      if client.auth {
        client.Send(230);
        return;
      }
      if client.user == "" {
        client.Send(503);
        return;
      }
      var i := 0;
      while i < |users|
        invariant 0 <= i <= |users| && client.State() == old(client.State())
        invariant FindAccount(users, client.user) == FindAccount(users[i..], client.user)
      {
        var user := users[i];
        assert users[i..][1..] == users[i + 1..];
        if user.name == client.user && !user.anon {
          if user.pass == arg {
            LogIn(client, user);
          } else {
            client.Send(530);
          }
          return;
        }
        i := i + 1;
      }
      client.Send(530);
    }

    /** The part of `pass_cmd` that sets the session up for an account. */
    method LogIn(client: Client, user: User)
      requires !user.anon
      modifies client
      ensures var s, root := old(client.State()), RootOf(tmp, user);
              var made := if root == tmp then s else s.(effects := s.effects + [MakeRoot(root)]);
              client.State() == Replied(LoggedIn(made, tmp, user), 230)
    {
      client.auth := true;
      client.perm := user.perm;
      client.phyRoot := tmp;
      var relative := user.root;
      if relative != "" && relative != "/" {
        if relative[0] == '/' {
          relative := relative[1..];
        }
        if relative != "" {
          client.phyRoot := tmp + "/" + relative;
          assert |client.phyRoot| > |tmp|;
          client.effects := client.effects + [MakeRoot(client.phyRoot)];
        }
      }
      client.Send(230);
    }

    method PasvCmd(client: Client, env: Env)
      modifies client
      ensures client.State() == AfterPasv(old(client.State()), env)
    {
      var ok := client.RequireAuth();
      if !ok {
        return;
      }
      client.ClosePasv();
      match env.pasv {
        case NoSocket => client.Send(425);
        case SetupFailed(l) =>
          client.events := client.events + [Opened(l), Closed(l)];
          client.Send(425);
        case Listening(l) =>
          client.events := client.events + [Opened(l)];
          client.dataSock := Some(l);
          client.pasv := true;
          client.Send(227);
      }
    }

    method ListCmd(client: Client, arg: string, env: Env)
      modifies client
      ensures client.State() == AfterTransfer(old(client.State()), env, ListDir, arg)
    {
      var ok := client.RequireAuth();
      if !ok {
        return;
      }
      ok := client.RequirePerm(ListDir);
      if !ok {
        return;
      }
      var path := ResolveLoop(client.phyRoot, client.cwd, arg);
      if path == "" {
        client.Send(550);
        return;
      }
      client.Send(150);
      var accepted := client.AcceptData(env.peer);
      if !accepted {
        client.Send(425);
        return;
      }
      client.effects := client.effects + [OnPath(ListDir, path)];
      client.Send(226);
    }

    /** `retr_cmd` and `stor_cmd`: the same checks in the same order, then the open of the file may fail. */
    method FileTransfer(client: Client, kind: Kind, arg: string, env: Env)
      requires kind.ReadFile? || kind.WriteFile?
      modifies client
      ensures client.State() == AfterTransfer(old(client.State()), env, kind, arg)
    {
      var ok := client.RequireAuth();
      if !ok {
        return;
      }
      ok := client.RequirePerm(kind);
      if !ok {
        return;
      }
      if arg == "" {
        client.Send(501);
        return;
      }
      var path := ResolveLoop(client.phyRoot, client.cwd, arg);
      if path == "" {
        client.Send(550);
        return;
      }
      client.Send(150);
      var accepted := client.AcceptData(env.peer);
      if !accepted {
        client.Send(425);
        return;
      }
      client.effects := client.effects + [OnPath(kind, path)];
      if !env.ok {
        client.Send(550);
        return;
      }
      client.Send(226);
    }

    /** `dele_cmd`, `mkd_cmd` and `rmd_cmd`, which differ in the call and the reply. */
    method FileOp(client: Client, kind: Kind, arg: string, env: Env)
      requires NeedsWrite(kind) && !kind.WriteFile?
      modifies client
      ensures client.State() == AfterFileOp(old(client.State()), env, kind, arg)
    {
      var ok := client.RequireAuth();
      if !ok {
        return;
      }
      ok := client.RequirePerm(kind);
      if !ok {
        return;
      }
      if arg == "" {
        client.Send(501);
        return;
      }
      var path := ResolveLoop(client.phyRoot, client.cwd, arg);
      if path == "" {
        client.Send(550);
        return;
      }
      client.effects := client.effects + [OnPath(kind, path)];
      client.Send(if !env.ok then 550 else if kind.MakeDir? then 257 else 250);
    }

    method CwdCmd(client: Client, arg: string)
      modifies client
      ensures client.State() == AfterCwd(old(client.State()), arg)
    {
      var ok := client.RequireAuth();
      if !ok {
        return;
      }
      ok := client.RequirePerm(ListDir);
      if !ok {
        return;
      }
      client.cwd := ChangeDirLoop(client.cwd, arg);
      client.Send(250);
    }

    method OkIfCmd(client: Client, code: nat)
      modifies client
      ensures client.State() == OkIf(old(client.State()), code)
    {
      var ok := client.RequireAuth();
      if ok {
        client.Send(code);
      }
    }

    method Dispatch(client: Client, line: string, env: Env)
      modifies client
      ensures client.State() == Performed(old(client.State()), users, tmp, Parse(line), env)
    {
      match Parse(line) {
        case Name(arg) => UserCmd(client, arg);
        case Password(arg) => PassCmd(client, arg);
        case Query(code) => OkIfCmd(client, code);
        case Passive => PasvCmd(client, env);
        case Transfer(kind, arg) =>
          if kind.ListDir? {
            ListCmd(client, arg, env);
          } else {
            FileTransfer(client, kind, arg, env);
          }
        case FileCall(kind, arg) => FileOp(client, kind, arg, env);
        case ChangeTo(arg) => CwdCmd(client, arg);
        case Quit =>
          client.Send(221);
          client.Close();
        case Answer(code) => client.Send(code);
      }
    }
  }
}
