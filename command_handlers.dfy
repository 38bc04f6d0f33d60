/**
 * The registrar that wires the chat commands to their handlers: it looks up
 * every name of an allow-list in the commands module, keeps the bindings in a
 * dictionary, refuses to hand them out before a successful validation, and
 * adds one command handler per entry to the dispatcher.
 *
 * The import system is a map from module paths to namespaces, and a namespace
 * is a map from attribute names to the bound handler values `H`. A Python
 * `dict` is an association list with distinct keys, in insertion order.
 */
module CommandHandlers {
  import opened Wrappers
  import opened Constants

  /** No name occurs twice. */
  predicate Distinct(names: seq<string>) {
    forall i, j :: 0 <= i < j < |names| ==> names[i] != names[j]
  }

  /** A Python `dict` keyed by command name: the bindings, and the keys in insertion order. */
  datatype Dict<H> = Dict(keys: seq<string>, values: map<string, H>)

  /** Each key is listed once, and the listed names are exactly the keys. */
  ghost predicate WellFormed<H>(d: Dict<H>) {
    Distinct(d.keys) && forall k :: k in d.values <==> k in d.keys
  }

  /** `d[k] = v`: an existing key keeps its place and gets the new value; a new key goes last. */
  function Put<H>(d: Dict<H>, k: string, v: H): Dict<H> {
    if k in d.values then Dict(d.keys, d.values[k := v])
    else Dict(d.keys + [k], d.values[k := v])
  }

  /** An assignment keeps a dictionary well formed and binds the key to the new value. */
  lemma PutKeepsWellFormed<H>(d: Dict<H>, k: string, v: H)
    requires WellFormed(d)
    ensures WellFormed(Put(d, k, v))
    ensures Put(d, k, v).values == d.values[k := v]
    ensures k in d.values ==> Put(d, k, v).keys == d.keys
    ensures k !in d.values ==> Put(d, k, v).keys == d.keys + [k]
  {
    if k !in d.values {
      var keys := d.keys + [k];
      forall i, j | 0 <= i < j < |keys| ensures keys[i] != keys[j] {
        if j == |d.keys| {
          assert keys[i] in d.keys;
        }
      }
    }
  }

  /** The first name, in list order, that the namespace does not bind. */
  function FirstMissing<H>(names: seq<string>, namespace: map<string, H>): (r: Option<nat>)
    ensures r.None? <==> forall i :: 0 <= i < |names| ==> names[i] in namespace
    ensures r.Some? ==> r.value < |names| && names[r.value] !in namespace
    ensures r.Some? ==> forall i :: 0 <= i < r.value ==> names[i] in namespace
    decreases |names|
  {
    if names == [] then None
    else if names[0] !in namespace then Some(0)
    else
      match FirstMissing(names[1..], namespace)
      case None => None
      case Some(i) => Some(i + 1)
  }

  /** The dictionary the loop of `validate` fills, name by name. */
  function BuildDict<H>(names: seq<string>, namespace: map<string, H>): Dict<H>
    requires forall i :: 0 <= i < |names| ==> names[i] in namespace
    decreases |names|
  {
    if names == [] then Dict([], map[])
    else
      var last := names[|names| - 1];
      Put(BuildDict(names[..|names| - 1], namespace), last, namespace[last])
  }

  /**
   * The dictionary is well formed, its keys are exactly the names, and each
   * is bound to the namespace's value for it.
   */
  lemma {:induction false} BuildDictContents<H>(names: seq<string>, namespace: map<string, H>)
    requires forall i :: 0 <= i < |names| ==> names[i] in namespace
    ensures WellFormed(BuildDict(names, namespace))
    ensures forall k :: k in BuildDict(names, namespace).values <==> k in names
    ensures forall k :: k in names ==> BuildDict(names, namespace).values[k] == namespace[k]
    decreases |names|
  {
    if names != [] {
      var init, last := names[..|names| - 1], names[|names| - 1];
      BuildDictContents(init, namespace);
      PutKeepsWellFormed(BuildDict(init, namespace), last, namespace[last]);
      assert names == init + [last];
    }
  }

  /** With distinct names, the dictionary lists them in the allow-list's order. */
  lemma {:induction false} BuildDictOfDistinct<H>(names: seq<string>, namespace: map<string, H>)
    requires forall i :: 0 <= i < |names| ==> names[i] in namespace
    requires Distinct(names)
    ensures BuildDict(names, namespace).keys == names
    decreases |names|
  {
    if names != [] {
      var init, last := names[..|names| - 1], names[|names| - 1];
      BuildDictOfDistinct(init, namespace);
      BuildDictContents(init, namespace);
      forall j | 0 <= j < |init| ensures init[j] != last {
        assert init[j] == names[j];
      }
      var d := BuildDict(init, namespace);
      assert last !in d.values;
      PutKeepsWellFormed(d, last, namespace[last]);
      assert names == init + [last];
    }
  }

  /**
   * What `validate` computes: the namespace of the module path, then every
   * allowed name looked up in list order; the first failure is reported.
   */
  function Resolve<H>(names: seq<string>, path: string, modules: map<string, map<string, H>>): (r: Result<Dict<H>, string>)
    ensures path !in modules ==> r == Err("No such commands module: " + path)
    ensures path in modules && FirstMissing(names, modules[path]).Some? ==>
      r == Err("No such command: " + names[FirstMissing(names, modules[path]).value])
    ensures r.Ok? <==> path in modules && forall i :: 0 <= i < |names| ==> names[i] in modules[path]
    ensures r.Ok? ==> r.value == BuildDict(names, modules[path])
  {
    if path !in modules then Err("No such commands module: " + path)
    else
      match FirstMissing(names, modules[path])
      case Some(i) => Err("No such command: " + names[i])
      case None => Ok(BuildDict(names, modules[path]))
  }

  /** `CommandHandler(command_name, handler)`. */
  datatype CommandHandler<H> = CommandHandler(command: string, callback: H)

  /** The part of the dispatcher the registrar uses: its list of handlers. */
  class Dispatcher<H> {
    var handlers: seq<CommandHandler<H>>

    constructor ()
      ensures handlers == []
    {
      handlers := [];
    }

    method AddHandler(h: CommandHandler<H>)
      modifies this
      ensures handlers == old(handlers) + [h]
    {
      handlers := handlers + [h];
    }
  }

  /** The handler entries of `handlers.items()`, in the dictionary's order. */
  function Entries<H>(d: Dict<H>): (hs: seq<CommandHandler<H>>)
    requires WellFormed(d)
    ensures |hs| == |d.keys|
    ensures forall i :: 0 <= i < |d.keys| ==> hs[i] == CommandHandler(d.keys[i], d.values[d.keys[i]])
  {
    seq(|d.keys|, i requires 0 <= i < |d.keys| && d.keys[i] in d.values => CommandHandler(d.keys[i], d.values[d.keys[i]]))
  }

  /** One handler per name, bound as the namespace binds it, in list order. */
  function HandlersFor<H>(names: seq<string>, namespace: map<string, H>): (hs: seq<CommandHandler<H>>)
    requires forall i :: 0 <= i < |names| ==> names[i] in namespace
    ensures |hs| == |names|
    ensures forall i :: 0 <= i < |names| ==> hs[i] == CommandHandler(names[i], namespace[names[i]])
  {
    seq(|names|, i requires 0 <= i < |names| && names[i] in namespace => CommandHandler(names[i], namespace[names[i]]))
  }

  class CommandRegistrar<H> {
    const allowedCommands: seq<string>
    const commandsModulePath: string
    var error: Option<string>
    var isValidFlag: bool
    var handlersDict: Option<Dict<H>>

    /** Once validated, a dictionary is there, and a dictionary never repeats a name. */
    ghost predicate Valid()
      reads this
    {
      && (isValidFlag ==> handlersDict.Some?)
      && (handlersDict.Some? ==> WellFormed(handlersDict.value))
    }

    constructor (allowedCommands: seq<string>, commandsModulePath: string)
      ensures Valid()
      ensures this.allowedCommands == allowedCommands && this.commandsModulePath == commandsModulePath
      ensures error == None && !isValidFlag && handlersDict == None
    {
      this.allowedCommands, this.commandsModulePath := allowedCommands, commandsModulePath;
      error, isValidFlag, handlersDict := None, false, None;
    }

    /** The `handlers` property: refused unless the last `is_valid` succeeded. */
    function Handlers(): (r: Result<Dict<H>, string>)
      reads this
      requires Valid()
      ensures r.Err? <==> !isValidFlag
      ensures r.Err? ==> r.error == "Commands not validated yet"
      ensures r.Ok? ==> handlersDict == Some(r.value)
    {
      if !isValidFlag then Err("Commands not validated yet") else Ok(handlersDict.value)
    }

    /** `get_commands_module`: the namespace at the module path. */
    method GetCommandsModule(modules: map<string, map<string, H>>) returns (r: Result<map<string, H>, string>)
      ensures commandsModulePath in modules ==> r == Ok(modules[commandsModulePath])
      ensures commandsModulePath !in modules ==> r == Err("No such commands module: " + commandsModulePath)
    {
      if commandsModulePath !in modules {
        return Err("No such commands module: " + commandsModulePath);
      }
      r := Ok(modules[commandsModulePath]);
    }

    /**
     * `validate`: fill a fresh dictionary name by name and store it only when
     * every name was found; a failure leaves the stored dictionary alone.
     */
    method Validate(modules: map<string, map<string, H>>) returns (r: Outcome<string>)
      requires Valid()
      modifies this
      ensures Valid() && error == old(error) && isValidFlag == old(isValidFlag)
      ensures var v := Resolve(allowedCommands, commandsModulePath, modules);
        && (v.Ok? ==> r == Pass && handlersDict == Some(v.value))
        && (v.Err? ==> r == Fail(v.error) && handlersDict == old(handlersDict))
    {
      var m := GetCommandsModule(modules);
      if m.Err? {
        return Fail(m.error);
      }
      var namespace := m.value;
      var names := allowedCommands;
      var handlers: Dict<H> := Dict([], map[]);
      var i := 0;
      while i < |names|
        invariant 0 <= i <= |names|
        invariant forall j :: 0 <= j < i ==> names[j] in namespace
        invariant handlers == BuildDict(names[..i], namespace)
      {
        var name := names[i];
        if name !in namespace {
          assert FirstMissing(names, namespace) == Some(i);
          return Fail("No such command: " + name);
        }
        assert names[..i + 1][..i] == names[..i];
        handlers := Put(handlers, name, namespace[name]);
        i := i + 1;
      }
      assert names[..i] == names;
      BuildDictContents(names, namespace);
      handlersDict := Some(handlers);
      r := Pass;
    }

    /** `is_valid`: validate; the flag and the error record the outcome of this call alone. */
    method IsValid(modules: map<string, map<string, H>>) returns (b: bool)
      requires Valid()
      modifies this
      ensures Valid()
      ensures var v := Resolve(allowedCommands, commandsModulePath, modules);
        && b == v.Ok? && isValidFlag == b
        && (v.Ok? ==> error == None && handlersDict == Some(v.value))
        && (v.Err? ==> error == Some(v.error) && handlersDict == old(handlersDict))
    {
      var r := Validate(modules);
      if r.Pass? {
        isValidFlag := true;
        error := None;
      } else {
        error := Some(r.error);
        isValidFlag := false;
      }
      b := isValidFlag;
    }

    /** `register_commands`: one dispatcher entry per dictionary entry, in order; nothing before validation. */
    method RegisterCommands(dispatcher: Dispatcher<H>) returns (r: Outcome<string>)
      requires Valid()
      modifies dispatcher
      ensures !isValidFlag ==> r == Fail("Commands not validated yet") && dispatcher.handlers == old(dispatcher.handlers)
      ensures isValidFlag ==> r == Pass && dispatcher.handlers == old(dispatcher.handlers) + Entries(handlersDict.value)
    {
      var h := Handlers();
      if h.Err? {
        return Fail(h.error);
      }
      var d := h.value;
      var i := 0;
      while i < |d.keys|
        invariant 0 <= i <= |d.keys|
        invariant dispatcher.handlers == old(dispatcher.handlers) + Entries(d)[..i]
      {
        var name := d.keys[i];
        dispatcher.AddHandler(CommandHandler(name, d.values[name]));
        assert Entries(d)[..i + 1] == Entries(d)[..i] + [Entries(d)[i]];
        i := i + 1;
      }
      assert Entries(d)[..i] == Entries(d);
      r := Pass;
    }
  }

  /**
   * The webhook's use of the registrar: validate, and on success register.
   * The dispatcher then holds exactly one handler per allowed name.
   */
  method RegisterAll<H>(allowed: seq<string>, path: string, modules: map<string, map<string, H>>, dispatcher: Dispatcher<H>)
    returns (error: Option<string>)
    requires Distinct(allowed)
    modifies dispatcher
    ensures var v := Resolve(allowed, path, modules);
      && (v.Err? ==> error == Some(v.error) && dispatcher.handlers == old(dispatcher.handlers))
      && (v.Ok? ==>
            && error == None
            && dispatcher.handlers == old(dispatcher.handlers) + HandlersFor(allowed, modules[path]))
  {
    var registrar := new CommandRegistrar<H>(allowed, path);
    var ok := registrar.IsValid(modules);
    if !ok {
      return registrar.error;
    }
    BuildDictOfDistinct(allowed, modules[path]);
    BuildDictContents(allowed, modules[path]);
    assert Entries(BuildDict(allowed, modules[path])) == HandlersFor(allowed, modules[path]);
    var r := registrar.RegisterCommands(dispatcher);
    error := None;
  }

  /** The bot's allow-list names every command once. */
  lemma AllowedCommandsDistinct()
    ensures Distinct(ALLOWED_COMMANDS)
  {
    forall i, j | 0 <= i < j < |ALLOWED_COMMANDS| ensures ALLOWED_COMMANDS[i] != ALLOWED_COMMANDS[j] {
      assert ALLOWED_COMMANDS[i][0] != ALLOWED_COMMANDS[j][0];
    }
  }

  /**
   * The webhook's wiring: the bot's allow-list against the bot's commands
   * module. Either the error of the first missing name, or one handler per
   * allowed command, in the allow-list's order.
   */
  method RegisterBotCommands<H>(modules: map<string, map<string, H>>, dispatcher: Dispatcher<H>) returns (error: Option<string>)
    modifies dispatcher
    ensures var v := Resolve(ALLOWED_COMMANDS, COMMANDS_MODULE, modules);
      && (v.Err? ==> error == Some(v.error) && dispatcher.handlers == old(dispatcher.handlers))
      && (v.Ok? ==>
            && error == None
            && |dispatcher.handlers| == |old(dispatcher.handlers)| + 8
            && dispatcher.handlers == old(dispatcher.handlers) + HandlersFor(ALLOWED_COMMANDS, modules[COMMANDS_MODULE]))
  {
    AllowedCommandsDistinct();
    error := RegisterAll(ALLOWED_COMMANDS, COMMANDS_MODULE, modules, dispatcher);
  }
}
