/**
The bubblewrap command line (pkg/bwrap/generate.go): the options Generate emits, as text
and as what bubblewrap takes them for.  Only the options the platform uses are known here.
*/
module CommandLine {
  import opened Options

  // ------------------------------------------------------------------ options

  /** An option that mounts something at `dst`. */
  datatype Op =
    | RoBindTry(src: string, dst: string)
    | RoBind(src: string, dst: string)
    | Bind(src: string, dst: string)
    | RoBindFd(fd: string, dst: string)
    | BindFd(fd: string, dst: string)
    | Proc(dst: string)
    | Dev(dst: string)
    | Tmpfs(dst: string)

  datatype Switch =
    | UnshareUser | UnshareIpc | UnsharePid | UnshareUts | UnshareCgroupTry
    | ClearEnv | DieWithParent | NewSession | AsPid1

  datatype Setting = Uid | Gid | Hostname | CapDrop | Chdir | Seccomp

  datatype Opt =
    | Flag(switch: Switch)
    | Set(setting: Setting, arg: string)
    | SetEnv(name: string, arg: string)
    | Mounts(op: Op)

  function SwitchText(s: Switch): string {
    match s
    case UnshareUser => "--unshare-user"
    case UnshareIpc => "--unshare-ipc"
    case UnsharePid => "--unshare-pid"
    case UnshareUts => "--unshare-uts"
    case UnshareCgroupTry => "--unshare-cgroup-try"
    case ClearEnv => "--clearenv"
    case DieWithParent => "--die-with-parent"
    case NewSession => "--new-session"
    case AsPid1 => "--as-pid-1"
  }

  function SettingText(s: Setting): string {
    match s
    case Uid => "--uid"
    case Gid => "--gid"
    case Hostname => "--hostname"
    case CapDrop => "--cap-drop"
    case Chdir => "--chdir"
    case Seccomp => "--seccomp"
  }

  function RenderOp(op: Op): seq<string> {
    match op
    case RoBindTry(src, dst) => ["--ro-bind-try", src, dst]
    case RoBind(src, dst) => ["--ro-bind", src, dst]
    case Bind(src, dst) => ["--bind", src, dst]
    case RoBindFd(fd, dst) => ["--ro-bind-fd", fd, dst]
    case BindFd(fd, dst) => ["--bind-fd", fd, dst]
    case Proc(dst) => ["--proc", dst]
    case Dev(dst) => ["--dev", dst]
    case Tmpfs(dst) => ["--tmpfs", dst]
  }

  function Render(o: Opt): seq<string> {
    match o
    case Flag(s) => [SwitchText(s)]
    case Set(s, arg) => [SettingText(s), arg]
    case SetEnv(name, arg) => ["--setenv", name, arg]
    case Mounts(op) => RenderOp(op)
  }

  function RenderAll(opts: seq<Opt>): seq<string> {
    if opts == [] then [] else RenderAll(opts[..|opts| - 1]) + Render(opts[|opts| - 1])
  }

  // ------------------------------------------------------------------ reading

  function ReadSwitch(name: string): Option<Switch> {
    if name == "--unshare-user" then Some(UnshareUser)
    else if name == "--unshare-ipc" then Some(UnshareIpc)
    else if name == "--unshare-pid" then Some(UnsharePid)
    else if name == "--unshare-uts" then Some(UnshareUts)
    else if name == "--unshare-cgroup-try" then Some(UnshareCgroupTry)
    else if name == "--clearenv" then Some(ClearEnv)
    else if name == "--die-with-parent" then Some(DieWithParent)
    else if name == "--new-session" then Some(NewSession)
    else if name == "--as-pid-1" then Some(AsPid1)
    else None
  }

  function ReadSetting(name: string, arg: string): Option<Opt> {
    if name == "--uid" then Some(Set(Uid, arg))
    else if name == "--gid" then Some(Set(Gid, arg))
    else if name == "--hostname" then Some(Set(Hostname, arg))
    else if name == "--cap-drop" then Some(Set(CapDrop, arg))
    else if name == "--chdir" then Some(Set(Chdir, arg))
    else if name == "--seccomp" then Some(Set(Seccomp, arg))
    else if name == "--proc" then Some(Mounts(Proc(arg)))
    else if name == "--dev" then Some(Mounts(Dev(arg)))
    else if name == "--tmpfs" then Some(Mounts(Tmpfs(arg)))
    else None
  }

  function ReadPair(name: string, arg: string, arg2: string): Option<Opt> {
    if name == "--setenv" then Some(SetEnv(arg, arg2))
    else if name == "--ro-bind-try" then Some(Mounts(RoBindTry(arg, arg2)))
    else if name == "--ro-bind" then Some(Mounts(RoBind(arg, arg2)))
    else if name == "--bind" then Some(Mounts(Bind(arg, arg2)))
    else if name == "--ro-bind-fd" then Some(Mounts(RoBindFd(arg, arg2)))
    else if name == "--bind-fd" then Some(Mounts(BindFd(arg, arg2)))
    else None
  }

  /** The option at the front of the arguments, and how many arguments it takes up. */
  function ReadOne(argv: seq<string>): Option<(Opt, nat)>
    requires argv != []
  {
    if ReadSwitch(argv[0]).Some? then Some((Flag(ReadSwitch(argv[0]).value), 1))
    else if |argv| >= 2 && ReadSetting(argv[0], argv[1]).Some? then Some((ReadSetting(argv[0], argv[1]).value, 2))
    else if |argv| >= 3 && ReadPair(argv[0], argv[1], argv[2]).Some?
    then Some((ReadPair(argv[0], argv[1], argv[2]).value, 3))
    else None
  }

  /** What bubblewrap makes of a command line: its options up to "--", or None if it cannot be read. */
  function ReadAll(argv: seq<string>): Option<seq<Opt>>
    decreases |argv|
  {
    if argv == [] then None
    else if argv[0] == "--" then Some([])
    else
      var one := ReadOne(argv);
      if one.None? || one.value.1 == 0 || one.value.1 > |argv| then None
      else
        var rest := ReadAll(argv[one.value.1..]);
        if rest.None? then None else Some([one.value.0] + rest.value)
  }

  lemma ReadsBackSwitch(s: Switch)
    ensures ReadSwitch(SwitchText(s)) == Some(s) && SwitchText(s) != "--"
  {
  }

  lemma ReadsBackSetting(s: Setting, arg: string)
    ensures ReadSwitch(SettingText(s)).None? && ReadSetting(SettingText(s), arg) == Some(Set(s, arg))
    ensures SettingText(s) != "--"
  {
  }

  lemma ReadsBackPair(o: Opt)
    requires o.SetEnv? || (o.Mounts? && !o.op.Proc? && !o.op.Dev? && !o.op.Tmpfs?)
    ensures var r := Render(o);
            && |r| == 3 && r[0] != "--" && ReadSwitch(r[0]).None? && ReadSetting(r[0], r[1]).None?
            && ReadPair(r[0], r[1], r[2]) == Some(o)
  {
  }

  lemma ReadsBackMount(o: Opt)
    requires o.Mounts? && (o.op.Proc? || o.op.Dev? || o.op.Tmpfs?)
    ensures var r := Render(o);
            && |r| == 2 && r[0] != "--" && ReadSwitch(r[0]).None?
            && ReadSetting(r[0], r[1]) == Some(o)
  {
  }

  lemma ReadsBackOne(o: Opt, rest: seq<string>)
    ensures Render(o) + rest != [] && (Render(o) + rest)[0] != "--"
    ensures ReadOne(Render(o) + rest) == Some((o, |Render(o)|)) && |Render(o)| > 0
  {
    hide ReadSwitch, ReadSetting, ReadPair, SwitchText, SettingText;
    match o {
      case Flag(s) => ReadsBackSwitch(s);
      case Set(s, arg) => ReadsBackSetting(s, arg);
      case SetEnv(_, _) => ReadsBackPair(o);
      case Mounts(op) =>
        if op.Proc? || op.Dev? || op.Tmpfs? {
          ReadsBackMount(o);
        } else {
          ReadsBackPair(o);
        }
    }
  }

  /** Reading a rendered command line gives back its options, one for one and in order. */
  lemma {:induction false} ReadsBackAll(opts: seq<Opt>, tail: seq<string>)
    requires ReadAll(tail).Some?
    ensures ReadAll(RenderAll(opts) + tail) == Some(opts + ReadAll(tail).value)
    decreases |opts|
  {
    hide Render, ReadOne;
    if opts == [] {
      assert RenderAll(opts) + tail == tail;
      assert opts + ReadAll(tail).value == ReadAll(tail).value;
    } else {
      var n := |opts| - 1;
      var front, o := opts[..n], opts[n];
      var tail' := Render(o) + tail;
      ReadsBackOne(o, tail);
      assert tail'[|Render(o)|..] == tail;
      assert ReadAll(tail') == Some([o] + ReadAll(tail).value);
      ReadsBackAll(front, tail');
      assert RenderAll(opts) + tail == RenderAll(front) + tail';
      assert front + ([o] + ReadAll(tail).value) == opts + ReadAll(tail).value;
    }
  }

  /** The mounting options of a command line, in the order bubblewrap applies them. */
  function Ops(opts: seq<Opt>): seq<Op> {
    if opts == [] then []
    else Ops(opts[..|opts| - 1]) + (if opts[|opts| - 1].Mounts? then [opts[|opts| - 1].op] else [])
  }

  lemma {:induction false} OpsOfConcat(a: seq<Opt>, b: seq<Opt>)
    ensures Ops(a + b) == Ops(a) + Ops(b)
  {
    if b == [] {
      assert a + b == a;
    } else {
      OpsOfConcat(a, b[..|b| - 1]);
      assert (a + b)[..|a + b| - 1] == a + b[..|b| - 1];
    }
  }

  lemma {:induction false} RenderAllOfConcat(a: seq<Opt>, b: seq<Opt>)
    ensures RenderAll(a + b) == RenderAll(a) + RenderAll(b)
  {
    hide Render;
    if b == [] {
      assert a + b == a;
    } else {
      RenderAllOfConcat(a, b[..|b| - 1]);
      assert (a + b)[..|a + b| - 1] == a + b[..|b| - 1];
      assert RenderAll(a) + RenderAll(b[..|b| - 1]) + Render(b[|b| - 1])
          == RenderAll(a) + (RenderAll(b[..|b| - 1]) + Render(b[|b| - 1]));
    }
  }
}
