/** The argv of an agent: the renderer's printer and the reader that undoes it. */
module ArgvFlags {
  import opened Wrappers

  const FLAGS := ["--host", "--port", "--socket-path", "--auth-token-file"]
  const SWITCHES := ["--supervised", "--help"]

  predicate IsFlag(name: string) { name in FLAGS }

  predicate IsSwitch(name: string) { name in SWITCHES }

  predicate Dashed(el: string) { |el| >= 2 && el[0] == '-' && el[1] == '-' }

  // ---------------------------------------------------------------- the reader

  /** `el.partition("=")`. */
  datatype Parts = Parts(name: string, eq: bool, value: string)

  function Partition(el: string): Parts {
    if el == "" then Parts("", false, "")
    else if el[0] == '=' then Parts("", true, el[1..])
    else
      var rest := Partition(el[1..]);
      Parts([el[0]] + rest.name, rest.eq, rest.value)
  }

  /** The reader's two variables. */
  datatype Reading = Reading(found: map<string, string>, awaited: string)

  function Read(r: Reading, el: string): Reading {
    if r.awaited != "" then
      Reading(if IsFlag(r.awaited) then r.found[r.awaited := el] else r.found, "")
    else if Dashed(el) then
      var p := Partition(el);
      if p.eq then Reading(if IsFlag(p.name) then r.found[p.name := p.value] else r.found, "")
      else if IsSwitch(el) then r
      else Reading(r.found, el)
    else r
  }

  function ReadAll(r: Reading, args: seq<string>): Reading {
    if args == [] then r else Read(ReadAll(r, args[..|args| - 1]), args[|args| - 1])
  }

  /** `read_argv_flags`. */
  method ReadArgvFlags(args: seq<string>) returns (found: map<string, string>)
    ensures found == ReadAll(Reading(map[], ""), args).found
  {
    found := map[];
    var awaited := "";
    for i := 0 to |args|
      invariant Reading(found, awaited) == ReadAll(Reading(map[], ""), args[..i])
    {
      assert args[..i + 1][..i] == args[..i];
      var el := args[i];
      if awaited != "" {
        if awaited in FLAGS { found := found[awaited := el]; }
        awaited := "";
      } else if Dashed(el) {
        var p := Partition(el);
        if p.eq {
          if p.name in FLAGS { found := found[p.name := p.value]; }
        } else if el !in SWITCHES {
          awaited := el;
        }
      }
    }
    assert args[..|args|] == args;
  }

  // ---------------------------------------------------------------- the printer

  /** One thing on a serve command line: an option in either spelling, a switch,
      or a plain word (the interpreter, `-m`, the module). */
  datatype Item = Spaced(name: string, value: string) | Joined(name: string, value: string)
                | Switch(name: string) | Word(el: string)

  predicate OptionName(name: string) { Dashed(name) && '=' !in name && !IsSwitch(name) }

  predicate Good(item: Item) {
    match item
    case Spaced(name, _) => OptionName(name)
    case Joined(name, _) => OptionName(name)
    case Switch(name) => IsSwitch(name)
    case Word(el) => !Dashed(el)
  }

  function Print(item: Item): seq<string> {
    match item
    case Spaced(name, value) => [name, value]
    case Joined(name, value) => [name + "=" + value]
    case Switch(name) => [name]
    case Word(el) => [el]
  }

  function PrintAll(items: seq<Item>): seq<string> {
    if items == [] then [] else PrintAll(items[..|items| - 1]) + Print(items[|items| - 1])
  }

  /** What an item says about flag `f`. */
  function Says(item: Item, f: string): Option<string> {
    if (item.Spaced? || item.Joined?) && item.name == f then Some(item.value) else None
  }

  /** The last value an item list gives `f`. */
  function LastValue(items: seq<Item>, f: string): Option<string> {
    if items == [] then None
    else
      var last := Says(items[|items| - 1], f);
      if last.Some? then last else LastValue(items[..|items| - 1], f)
  }

  function Get(m: map<string, string>, f: string): Option<string> { if f in m then Some(m[f]) else None }

  /** The reader has each known flag's last value, and nothing else. */
  ghost predicate Undoes(found: map<string, string>, items: seq<Item>) {
    forall f: string :: Get(found, f) == if IsFlag(f) then LastValue(items, f) else None
  }

  lemma {:induction false} PartitionNamed(name: string, value: string)
    requires '=' !in name
    ensures Partition(name + "=" + value) == Parts(name, true, value)
    ensures !Partition(name).eq
  {
    if name == "" {
      assert ("" + "=" + value)[1..] == value;
    } else {
      PartitionNamed(name[1..], value);
      assert (name + "=" + value)[1..] == name[1..] + "=" + value;
      assert name == [name[0]] + name[1..];
    }
  }

  lemma {:induction false} ReadAppend(r: Reading, a: seq<string>, b: seq<string>)
    ensures ReadAll(r, a + b) == ReadAll(ReadAll(r, a), b)
  {
    if b == [] {
      assert a + b == a;
    } else {
      ReadAppend(r, a, b[..|b| - 1]);
      assert (a + b)[..|a + b| - 1] == a + b[..|b| - 1];
    }
  }

  lemma SwitchesHaveNoEquals(name: string)
    requires IsSwitch(name)
    ensures '=' !in name && Dashed(name)
  {
  }

  lemma ReadOne(r: Reading, el: string)
    ensures ReadAll(r, [el]) == Read(r, el)
  {
    assert [el][..0] == [];
    assert ReadAll(r, []) == r;
  }

  lemma ReadTwo(r: Reading, el: string, next: string)
    ensures ReadAll(r, [el, next]) == Read(Read(r, el), next)
  {
    assert [el, next][..1] == [el];
    ReadOne(r, el);
  }

  /** What one option, read whole, adds. */
  function Found(found: map<string, string>, item: Item): map<string, string> {
    if (item.Spaced? || item.Joined?) && IsFlag(item.name) then found[item.name := item.value] else found
  }

  lemma ReadSpaced(found: map<string, string>, name: string, value: string)
    requires OptionName(name)
    ensures ReadAll(Reading(found, ""), [name, value]) == Reading(Found(found, Spaced(name, value)), "")
  {
    hide ReadAll, Partition;
    PartitionNamed(name, value);
    ReadTwo(Reading(found, ""), name, value);
  }

  lemma ReadJoined(found: map<string, string>, name: string, value: string)
    requires OptionName(name)
    ensures ReadAll(Reading(found, ""), [name + "=" + value]) == Reading(Found(found, Joined(name, value)), "")
  {
    hide ReadAll, Partition, IsFlag, IsSwitch;
    PartitionNamed(name, value);
    ReadOne(Reading(found, ""), name + "=" + value);
  }

  lemma ReadSwitch(found: map<string, string>, name: string)
    requires IsSwitch(name)
    ensures ReadAll(Reading(found, ""), [name]) == Reading(found, "")
  {
    hide ReadAll, Partition, IsFlag, IsSwitch;
    SwitchesHaveNoEquals(name);
    PartitionNamed(name, "");
    ReadOne(Reading(found, ""), name);
  }

  /** One printed item is read as one step, whatever its value looks like. */
  lemma ReadItem(found: map<string, string>, item: Item)
    requires Good(item)
    ensures ReadAll(Reading(found, ""), Print(item)) == Reading(Found(found, item), "")
  {
    hide ReadAll;
    match item
    case Spaced(name, value) => ReadSpaced(found, name, value);
    case Joined(name, value) => ReadJoined(found, name, value);
    case Switch(name) => ReadSwitch(found, name);
    case Word(el) => ReadOne(Reading(found, ""), el);
  }

  /** Printer and reader undo each other: options in either spelling, mixed with
      switches and words, read back as the last value of each known flag; a
      value that looks like a flag is never read as one. */
  lemma {:induction false} ReaderUndoesPrinter(items: seq<Item>)
    requires forall i :: i in items ==> Good(i)
    ensures var r := ReadAll(Reading(map[], ""), PrintAll(items)); r.awaited == "" && Undoes(r.found, items)
  {
    if items != [] {
      var n := |items| - 1;
      ReaderUndoesPrinter(items[..n]);
      var r := ReadAll(Reading(map[], ""), PrintAll(items[..n]));
      assert items[n] in items;
      ReadItem(r.found, items[n]);
      ReadAppend(Reading(map[], ""), PrintAll(items[..n]), Print(items[n]));
    }
  }

  // ---------------------------------------------------------------- the renderer

  datatype Transport = Socket(path: string) | Tcp(host: string, port: nat)

  datatype Result<T> = Ok(value: T) | Refused

  const LOOPBACK := ["127.0.0.1", "::1", "localhost"]

  predicate PathChar(c: char) {
    'A' <= c <= 'Z' || 'a' <= c <= 'z' || '0' <= c <= '9' || c in "._/+- @"
  }

  /** The absolute-path allowlist. */
  predicate AbsPath(s: string) { |s| >= 2 && s[0] == '/' && forall c :: c in s[1..] ==> PathChar(c) }

  predicate Digits(s: string) { forall k :: 0 <= k < |s| ==> '0' <= s[k] <= '9' }

  function Number(s: string): nat
    requires Digits(s)
  {
    if s == "" then 0 else 10 * Number(s[..|s| - 1]) + (s[|s| - 1] as nat - '0' as nat)
  }

  /** `str(n)`. */
  function Decimal(n: nat): string {
    if n < 10 then [('0' as nat + n) as char] else Decimal(n / 10) + [('0' as nat + n % 10) as char]
  }

  /** An unset or empty variable counts as unset. */
  function Set(v: Option<string>): Option<string> { if v == Some("") then None else v }

  /** The renderer's choice of transport. */
  function ChooseTransport(socket: Option<string>, host: Option<string>, port: Option<string>): Result<Transport> {
    var s, h, p := Set(socket), Set(host), Set(port);
    if s.Some? then
      if h.Some? || p.Some? then Refused
      else if AbsPath(s.value) then Ok(Socket(s.value)) else Refused
    else
      var name := if h.Some? then h.value else "127.0.0.1";
      if name !in LOOPBACK || p == None || |p.value| > 5 || !Digits(p.value) then Refused
      else if 1 <= Number(p.value) <= 65535 then Ok(Tcp(name, Number(p.value))) else Refused
  }

  function TransportItems(t: Transport): seq<Item> {
    match t
    case Socket(path) => [Spaced("--socket-path", path)]
    case Tcp(host, port) => [Spaced("--host", host), Spaced("--port", Decimal(port))]
  }

  function TokenItems(tokenFile: Option<string>): seq<Item> {
    if tokenFile.Some? then [Spaced("--auth-token-file", tokenFile.value)] else []
  }

  function ArgvItems(python: string, t: Transport, backend: string, model: string,
      tokenFile: Option<string>): seq<Item> {
    [Word(python), Word("-m"), Word("stt_server")] + TransportItems(t)
    + [Spaced("--backend", backend), Spaced("--model", model), Spaced("--log-level", "INFO")] + TokenItems(tokenFile)
  }

  /** The renderer's `ProgramArguments`, built and appended to as there. */
  method RenderArgv(python: string, t: Transport, backend: string, model: string, tokenFile: Option<string>)
      returns (argv: seq<string>)
    ensures argv == PrintAll(ArgvItems(python, t, backend, model, tokenFile))
  {
    var transportArgs := match t
                         case Socket(path) => ["--socket-path", path]
                         case Tcp(host, port) => ["--host", host, "--port", Decimal(port)];
    argv := [python, "-m", "stt_server"] + transportArgs
            + ["--backend", backend, "--model", model, "--log-level", "INFO"];
    if tokenFile.Some? { argv := argv + ["--auth-token-file", tokenFile.value]; }
    PrintedTransport(python, t);
    PrintedRest(python, t, backend, model, tokenFile);
  }

  lemma {:induction false} PrintAppend(a: seq<Item>, b: seq<Item>)
    ensures PrintAll(a + b) == PrintAll(a) + PrintAll(b)
  {
    if b == [] {
      assert a + b == a;
    } else {
      var n := |b| - 1;
      PrintAppend(a, b[..n]);
      assert (a + b)[..|a + b| - 1] == a + b[..n];
      PrintLast(a + b);
      PrintLast(b);
      hide PrintAll, Print;
      Assoc(PrintAll(a), PrintAll(b[..n]), Print(b[n]));
    }
  }

  lemma Assoc(a: seq<string>, b: seq<string>, c: seq<string>)
    ensures (a + b) + c == a + (b + c)
  {
  }

  lemma PrintLast(items: seq<Item>)
    requires items != []
    ensures PrintAll(items) == PrintAll(items[..|items| - 1]) + Print(items[|items| - 1])
  {
  }

  lemma PrintOne(i: Item)
    ensures PrintAll([i]) == Print(i)
  {
    assert [i][..0] == [];
  }

  lemma PrintTwo(i: Item, j: Item)
    ensures PrintAll([i, j]) == Print(i) + Print(j)
  {
    PrintAppend([i], [j]);
    PrintOne(i);
    PrintOne(j);
    assert [i] + [j] == [i, j];
  }

  lemma PrintThree(i: Item, j: Item, k: Item)
    ensures PrintAll([i, j, k]) == Print(i) + Print(j) + Print(k)
  {
    PrintAppend([i, j], [k]);
    PrintTwo(i, j);
    PrintOne(k);
    assert [i, j] + [k] == [i, j, k];
  }

  function Head(python: string): seq<Item> { [Word(python), Word("-m"), Word("stt_server")] }

  lemma PrintedTransport(python: string, t: Transport)
    ensures PrintAll(Head(python)) == [python, "-m", "stt_server"]
    ensures t.Socket? ==> PrintAll(TransportItems(t)) == ["--socket-path", t.path]
    ensures t.Tcp? ==> PrintAll(TransportItems(t)) == ["--host", t.host, "--port", Decimal(t.port)]
  {
    PrintThree(Word(python), Word("-m"), Word("stt_server"));
    match t
    case Socket(path) => PrintOne(Spaced("--socket-path", path));
    case Tcp(host, port) => PrintTwo(Spaced("--host", host), Spaced("--port", Decimal(port)));
  }

  lemma PrintedRest(python: string, t: Transport, backend: string, model: string, tokenFile: Option<string>)
    ensures PrintAll(ArgvItems(python, t, backend, model, tokenFile))
         == PrintAll(Head(python)) + PrintAll(TransportItems(t))
            + ["--backend", backend, "--model", model, "--log-level", "INFO"]
            + (if tokenFile.Some? then ["--auth-token-file", tokenFile.value] else [])
  {
    var rest := ModelItems(backend, model);
    PrintAppend(Head(python), TransportItems(t));
    PrintAppend(Head(python) + TransportItems(t), rest);
    PrintAppend(Head(python) + TransportItems(t) + rest, TokenItems(tokenFile));
    PrintedModel(backend, model, tokenFile);
    assert ArgvItems(python, t, backend, model, tokenFile)
        == Head(python) + TransportItems(t) + rest + TokenItems(tokenFile);
    hide PrintAll, ModelItems, TransportItems, TokenItems, Head, ArgvItems;
  }

  function ModelItems(backend: string, model: string): seq<Item> {
    [Spaced("--backend", backend), Spaced("--model", model), Spaced("--log-level", "INFO")]
  }

  lemma PrintedModel(backend: string, model: string, tokenFile: Option<string>)
    ensures PrintAll(ModelItems(backend, model)) == ["--backend", backend, "--model", model, "--log-level", "INFO"]
    ensures PrintAll(TokenItems(tokenFile)) == if tokenFile.Some? then ["--auth-token-file", tokenFile.value] else []
  {
    var rest := ModelItems(backend, model);
    PrintThree(rest[0], rest[1], rest[2]);
    if tokenFile.Some? { PrintOne(Spaced("--auth-token-file", tokenFile.value)); }
  }

  /** The last value of a list is the last one of its tail, else of its head. */
  lemma {:induction false} LastOfAppend(a: seq<Item>, b: seq<Item>, f: string)
    ensures LastValue(a + b, f) == if LastValue(b, f).Some? then LastValue(b, f) else LastValue(a, f)
  {
    if b == [] {
      assert a + b == a;
    } else {
      LastOfAppend(a, b[..|b| - 1], f);
      assert (a + b)[..|a + b| - 1] == a + b[..|b| - 1];
    }
  }

  lemma LastOfOne(i: Item, f: string)
    ensures LastValue([i], f) == Says(i, f)
  {
    assert [i][..0] == [];
  }

  lemma LastOfTwo(i: Item, j: Item, f: string)
    ensures LastValue([i, j], f) == if Says(j, f).Some? then Says(j, f) else Says(i, f)
  {
    LastOfAppend([i], [j], f);
    LastOfOne(i, f);
    LastOfOne(j, f);
    assert [i] + [j] == [i, j];
  }

  lemma LastOfThree(i: Item, j: Item, k: Item, f: string)
    ensures LastValue([i, j, k], f) == if Says(k, f).Some? then Says(k, f) else LastValue([i, j], f)
  {
    LastOfAppend([i, j], [k], f);
    LastOfOne(k, f);
    assert [i, j] + [k] == [i, j, k];
  }

  /** What the renderer says about each known flag. */
  function Rendered(t: Transport, tokenFile: Option<string>, f: string): Option<string> {
    if f == "--auth-token-file" then tokenFile
    else match t
      case Socket(path) => if f == "--socket-path" then Some(path) else None
      case Tcp(host, port) => if f == "--host" then Some(host) else if f == "--port" then Some(Decimal(port)) else None
  }

  lemma ArgvSays(python: string, t: Transport, backend: string, model: string, tokenFile: Option<string>, f: string)
    requires IsFlag(f)
    ensures LastValue(ArgvItems(python, t, backend, model, tokenFile), f) == Rendered(t, tokenFile, f)
  {
    var head, rest := Head(python),
        [Spaced("--backend", backend), Spaced("--model", model), Spaced("--log-level", "INFO")];
    LastOfTwo(head[0], head[1], f);
    LastOfThree(head[0], head[1], head[2], f);
    LastOfTwo(rest[0], rest[1], f);
    LastOfThree(rest[0], rest[1], rest[2], f);
    match t {
      case Socket(path) => LastOfOne(Spaced("--socket-path", path), f);
      case Tcp(host, port) => LastOfTwo(Spaced("--host", host), Spaced("--port", Decimal(port)), f);
    }
    if tokenFile.Some? { LastOfOne(Spaced("--auth-token-file", tokenFile.value), f); }
    LastOfAppend(head, TransportItems(t), f);
    LastOfAppend(head + TransportItems(t), rest, f);
    LastOfAppend(head + TransportItems(t) + rest, TokenItems(tokenFile), f);
  }

  /** The rendered argv reads back as exactly its transport and its token file,
      whatever the backend and the model are called. */
  lemma RenderedReadsBack(python: string, t: Transport, backend: string, model: string, tokenFile: Option<string>,
      f: string)
    requires AbsPath(python)
    ensures var found := ReadAll(Reading(map[], ""), PrintAll(ArgvItems(python, t, backend, model, tokenFile))).found;
            Get(found, f) == if IsFlag(f) then Rendered(t, tokenFile, f) else None
  {
    var items := ArgvItems(python, t, backend, model, tokenFile);
    assert !Dashed(python);
    ArgvGood(python, t, backend, model, tokenFile);
    ReaderUndoesPrinter(items);
    if IsFlag(f) { ArgvSays(python, t, backend, model, tokenFile, f); }
  }

  lemma ArgvGood(python: string, t: Transport, backend: string, model: string, tokenFile: Option<string>)
    requires !Dashed(python)
    ensures forall i :: i in ArgvItems(python, t, backend, model, tokenFile) ==> Good(i)
  {
    assert !Dashed("-m") && !Dashed("stt_server");
    FlagNames();
    OtherNames();
    hide OptionName, Dashed;
  }

  lemma FlagNames()
    ensures OptionName("--socket-path") && OptionName("--host") && OptionName("--port")
            && OptionName("--auth-token-file")
  {
  }

  lemma OtherNames()
    ensures OptionName("--backend") && OptionName("--model") && OptionName("--log-level")
  {
  }

  /** The port is printed in decimal and reads back as the same number. */
  lemma {:induction false} DecimalReadsBack(n: nat)
    ensures Digits(Decimal(n)) && Number(Decimal(n)) == n
  {
    if n >= 10 {
      DecimalReadsBack(n / 10);
      var d := Decimal(n / 10);
      assert Decimal(n)[..|Decimal(n)| - 1] == d;
    }
  }

  /** The one TCP endpoint that the variables name, if they name one. */
  ghost predicate Names(host: Option<string>, port: Option<string>, h: string, n: nat) {
    && h in LOOPBACK && (Set(host) == Some(h) || (Set(host) == None && h == "127.0.0.1"))
    && exists p :: Set(port) == Some(p) && |p| <= 5 && Digits(p) && Number(p) == n && 1 <= n <= 65535
  }

  /** What is given is what is chosen, and nothing else is accepted: a socket alone
      with an allowed path, or a loopback host (127.0.0.1 unless one is named)
      with a port in range. */
  lemma ChosenIff(socket: Option<string>, host: Option<string>, port: Option<string>, t: Transport)
    ensures ChooseTransport(socket, host, port) == Ok(t) <==>
              match t
              case Socket(path) => Set(socket) == Some(path) && AbsPath(path) && Set(host) == None && Set(port) == None
              case Tcp(h, n) => Set(socket) == None && Names(host, port, h, n)
  {
  }

  /** Every accepted environment reads back from its own argv: the socket path or
      the host and the port's number, and no other endpoint. */
  lemma EnvironmentReadsBack(socket: Option<string>, host: Option<string>, port: Option<string>, python: string,
      backend: string, model: string, token: Option<string>)
    requires AbsPath(python) && ChooseTransport(socket, host, port).Ok?
    ensures var t := ChooseTransport(socket, host, port).value;
            var found := ReadAll(Reading(map[], ""), PrintAll(ArgvItems(python, t, backend, model, token))).found;
            && Get(found, "--socket-path") == Set(socket) && Get(found, "--auth-token-file") == token
            && (Set(socket).Some? ==> Get(found, "--host") == None && Get(found, "--port") == None)
            && (Set(socket) == None ==>
                  Get(found, "--host") == (if Set(host).Some? then Set(host) else Some("127.0.0.1"))
                  && Set(port).Some? && Get(found, "--port").Some?
                  && Digits(Set(port).value) && Digits(Get(found, "--port").value)
                  && Number(Get(found, "--port").value) == Number(Set(port).value))
  {
    var t := ChooseTransport(socket, host, port).value;
    ChosenIff(socket, host, port, t);
    RenderedReadsBack(python, t, backend, model, token, "--socket-path");
    RenderedReadsBack(python, t, backend, model, token, "--host");
    RenderedReadsBack(python, t, backend, model, token, "--port");
    RenderedReadsBack(python, t, backend, model, token, "--auth-token-file");
    if t.Tcp? { DecimalReadsBack(t.port); }
    hide ReadAll, PrintAll, ArgvItems, ChooseTransport;
  }

  /** A port given to the renderer, zero-padded or not, reads back as its number. */
  lemma PortSurvives(socket: Option<string>, host: Option<string>, port: Option<string>, token: Option<string>)
    requires ChooseTransport(socket, host, port).Ok? && ChooseTransport(socket, host, port).value.Tcp?
    ensures var r := Rendered(ChooseTransport(socket, host, port).value, token, "--port");
            && Set(port).Some? && Digits(Set(port).value) && r.Some? && Digits(r.value)
            && Number(r.value) == Number(Set(port).value) && 1 <= Number(r.value) <= 65535
  {
    DecimalReadsBack(Number(Set(port).value));
  }
}
