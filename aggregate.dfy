/**
 * Result aggregation (lib/index.js lines 8-35): the 'field', 'file', 'error'
 * and 'end' handlers that `parse` installs on the engine when a callback is
 * supplied, and the two tables they build.
 */
module Aggregation {

  import opened Wrappers
  import opened Engine

  /** An entry of the files table: one file stored bare, or an array of files. */
  datatype FileEntry<F> = Single(file: F) | Many(files: seq<F>)

  /** A notification the engine emits to the handlers (formidable itself decides when). */
  datatype Notification<V, F> =
    | Field(name: string, value: V)
    | File(name: string, file: F)
    | Failed(err: Error)
    | Finished

  /** One invocation of the callback, with the tables as they were at that moment. */
  datatype Completion<V, F> =
    Completion(err: Option<Error>, fields: map<string, V>, files: map<string, FileEntry<F>>)

  /** The closure's state: both tables and the callback invocations made so far. */
  datatype Aggregate<V, F> =
    Aggregate(fields: map<string, V>, files: map<string, FileEntry<F>>, completions: seq<Completion<V, F>>)

  function Lookup<T>(m: map<string, T>, k: string): Option<T>
  {
    if k in m then Some(m[k]) else None
  }

  /**
   * The entry for a name once one more file arrives, given its entry before
   * (an entry is never an empty array, so "present" is JavaScript's truthiness
   * of `files[name]`, looked up among the table's own keys).
   */
  function Added<F>(multiples: bool, entry: Option<FileEntry<F>>, file: F): (e: FileEntry<F>)
    ensures !multiples || entry.None? ==> e == Single(file)
    ensures multiples && entry.Some? ==> e.Many? && e.files != [] && e.files[|e.files| - 1] == file
  {
    if !multiples then Single(file)
    else match entry
      case None => Single(file)
      case Some(Single(first)) => Many([first, file])
      case Some(Many(fs)) => Many(fs + [file])
  }

  /**
   * The effect of one notification. Without a callback no handler is
   * installed and nothing happens.
   */
  function Deliver<V, F>(subscribed: bool, multiples: bool, a: Aggregate<V, F>, n: Notification<V, F>): Aggregate<V, F>
  {
    if !subscribed then a
    else match n
      case Field(name, value) => a.(fields := a.fields[name := value])
      case File(name, file) => a.(files := a.files[name := Added(multiples, Lookup(a.files, name), file)])
      case Failed(err) => a.(completions := a.completions + [Completion(Some(err), a.fields, a.files)])
      case Finished => a.(completions := a.completions + [Completion(None, a.fields, a.files)])
  }

  /** The effect of a sequence of notifications, handled one at a time in order. */
  function DeliverAll<V, F>(subscribed: bool, multiples: bool, a: Aggregate<V, F>, ns: seq<Notification<V, F>>): Aggregate<V, F>
    decreases |ns|
  {
    if ns == [] then a
    else DeliverAll(subscribed, multiples, Deliver(subscribed, multiples, a, ns[0]), ns[1..])
  }

  // ---------------------------------------------------------------------------
  // Reference definitions, stated over the whole notification sequence

  /** The value of the last Field notification for `name`, if there is one. */
  function LastField<V, F>(ns: seq<Notification<V, F>>, name: string): Option<V>
  {
    if ns == [] then None
    else match LastField(ns[1..], name)
      case Some(v) => Some(v)
      case None => if ns[0].Field? && ns[0].name == name then Some(ns[0].value) else None
  }

  /** The files of the File notifications for `name`, in arrival order. */
  function FilesNamed<V, F>(ns: seq<Notification<V, F>>, name: string): seq<F>
  {
    if ns == [] then []
    else (if ns[0].File? && ns[0].name == name then [ns[0].file] else []) + FilesNamed(ns[1..], name)
  }

  /** The entry a name's files `fs` should leave when the name had none before. */
  function Expected<F>(multiples: bool, fs: seq<F>): Option<FileEntry<F>>
  {
    if fs == [] then None
    else if !multiples then Some(Single(fs[|fs| - 1]))
    else if |fs| == 1 then Some(Single(fs[0]))
    else Some(Many(fs))
  }

  /** An entry after the files `fs` arrive one by one. */
  function AddedAll<F>(multiples: bool, entry: Option<FileEntry<F>>, fs: seq<F>): Option<FileEntry<F>>
    decreases |fs|
  {
    if fs == [] then entry
    else AddedAll(multiples, Some(Added(multiples, entry, fs[0])), fs[1..])
  }

  /** The error argument of each callback invocation. */
  function Verdicts<V, F>(cs: seq<Completion<V, F>>): seq<Option<Error>>
  {
    if cs == [] then [] else [cs[0].err] + Verdicts(cs[1..])
  }

  /** The error argument each 'error' or 'end' notification should produce, in order. */
  function Terminals<V, F>(ns: seq<Notification<V, F>>): seq<Option<Error>>
  {
    if ns == [] then []
    else
      (match ns[0]
       case Failed(err) => [Some(err)]
       case Finished => [None]
       case _ => []) + Terminals(ns[1..])
  }

  // ---------------------------------------------------------------------------
  // Properties

  /**
   * Fields: each name ends with the value of the last field received for it;
   * a name that received none keeps what it had.
   */
  lemma {:induction false} FieldsLastWins<V, F>(multiples: bool, a: Aggregate<V, F>, ns: seq<Notification<V, F>>, name: string)
    ensures Lookup(DeliverAll(true, multiples, a, ns).fields, name)
         == if LastField(ns, name).Some? then LastField(ns, name) else Lookup(a.fields, name)
    decreases |ns|
  {
    if ns != [] {
      FieldsLastWins(multiples, Deliver(true, multiples, a, ns[0]), ns[1..], name);
    }
  }

  /** Files: a name's entry is its old entry with that name's files added one by one, in order. */
  lemma {:induction false} FilesGroupedByName<V, F>(multiples: bool, a: Aggregate<V, F>, ns: seq<Notification<V, F>>, name: string)
    ensures Lookup(DeliverAll(true, multiples, a, ns).files, name)
         == AddedAll(multiples, Lookup(a.files, name), FilesNamed(ns, name))
    decreases |ns|
  {
    if ns != [] {
      var a' := Deliver(true, multiples, a, ns[0]);
      FilesGroupedByName(multiples, a', ns[1..], name);
      if ns[0].File? && ns[0].name == name {
        var fs := FilesNamed(ns[1..], name);
        assert FilesNamed(ns, name) == [ns[0].file] + fs;
        assert ([ns[0].file] + fs)[1..] == fs;
      } else {
        assert FilesNamed(ns, name) == FilesNamed(ns[1..], name);
        assert Lookup(a'.files, name) == Lookup(a.files, name);
      }
    }
  }

  /** Appending to an array keeps every file in arrival order. */
  lemma {:induction false} AddedAllToMany<F>(gs: seq<F>, fs: seq<F>)
    ensures AddedAll(true, Some(Many(gs)), fs) == Some(Many(gs + fs))
    decreases |fs|
  {
    if fs == [] {
      assert gs + fs == gs;
    } else {
      AddedAllToMany(gs + [fs[0]], fs[1..]);
      assert gs + [fs[0]] + fs[1..] == gs + fs;
    }
  }

  /** With multiples off, only the last file survives, whatever was there before. */
  lemma {:induction false} AddedAllOverwrites<F>(entry: Option<FileEntry<F>>, fs: seq<F>)
    requires fs != []
    ensures AddedAll(false, entry, fs) == Some(Single(fs[|fs| - 1]))
    decreases |fs|
  {
    if |fs| > 1 {
      AddedAllOverwrites(Some(Added(false, entry, fs[0])), fs[1..]);
    }
  }

  /** Starting from no entry, the files for a name leave exactly the expected entry. */
  lemma {:induction false} AddedAllFromNothing<F>(multiples: bool, fs: seq<F>)
    ensures AddedAll(multiples, None, fs) == Expected(multiples, fs)
  {
    if fs != [] {
      if !multiples {
        AddedAllOverwrites(None, fs);
      } else if |fs| > 1 {
        var rest := fs[1..];
        assert AddedAll(true, Some(Single(fs[0])), rest)
            == AddedAll(true, Some(Many([fs[0], rest[0]])), rest[1..]);
        AddedAllToMany([fs[0], rest[0]], rest[1..]);
        assert [fs[0], rest[0]] + rest[1..] == fs;
      }
    }
  }

  /**
   * The files table after a parse: a name with no file has no entry; with
   * multiples off it holds the last file received; with multiples on the
   * first file is stored bare and from the second on the entry is the array
   * of all the files received for that name, in arrival order.
   */
  lemma FilesAfterParse<V, F>(multiples: bool, ns: seq<Notification<V, F>>, name: string)
    ensures Lookup(DeliverAll(true, multiples, Aggregate(map[], map[], []), ns).files, name)
         == Expected(multiples, FilesNamed(ns, name))
  {
    FilesGroupedByName(multiples, Aggregate(map[], map[], []), ns, name);
    AddedAllFromNothing(multiples, FilesNamed(ns, name));
  }

  /** Without a callback no handler is installed: no notification changes anything or invokes anything. */
  lemma {:induction false} NoCallbackNoEffect<V, F>(multiples: bool, a: Aggregate<V, F>, ns: seq<Notification<V, F>>)
    ensures DeliverAll(false, multiples, a, ns) == a
    decreases |ns|
  {
    if ns != [] {
      NoCallbackNoEffect(multiples, a, ns[1..]);
    }
  }

  lemma {:induction false} VerdictsAppend<V, F>(a: seq<Completion<V, F>>, b: seq<Completion<V, F>>)
    ensures Verdicts(a + b) == Verdicts(a) + Verdicts(b)
  {
    if a == [] {
      assert a + b == b;
    } else {
      assert (a + b)[1..] == a[1..] + b;
      VerdictsAppend(a[1..], b);
    }
  }

  /**
   * The handlers add no guard of their own: every 'error' notification calls
   * the callback with its error and every 'end' notification with null, in
   * order, once each.
   */
  lemma {:induction false} CallbackPerTerminal<V, F>(multiples: bool, a: Aggregate<V, F>, ns: seq<Notification<V, F>>)
    ensures Verdicts(DeliverAll(true, multiples, a, ns).completions) == Verdicts(a.completions) + Terminals(ns)
    decreases |ns|
  {
    if ns != [] {
      var a' := Deliver(true, multiples, a, ns[0]);
      CallbackPerTerminal(multiples, a', ns[1..]);
      match ns[0]
      case Failed(err) =>
        VerdictsAppend(a.completions, [Completion(Some(err), a.fields, a.files)]);
      case Finished =>
        VerdictsAppend(a.completions, [Completion(None, a.fields, a.files)]);
      case _ =>
    }
  }

  // ---------------------------------------------------------------------------
  // The closure state, updated in place by the handlers

  class Aggregator<V, F> {
    /** A callback was supplied, so the handlers are installed. */
    const subscribed: bool
    var fields: map<string, V>
    var files: map<string, FileEntry<F>>
    var completions: seq<Completion<V, F>>

    function State(): Aggregate<V, F>
      reads this
    {
      Aggregate(fields, files, completions)
    }

    /** `const fields = {}; const files = {};` when `cb` is supplied. */
    constructor (hasCallback: bool)
      ensures subscribed == hasCallback
      ensures State() == Aggregate(map[], map[], [])
    {
      subscribed := hasCallback;
      fields, files, completions := map[], map[], [];
    }

    /** The 'field' handler: overwrite the value for `name`. */
    method OnField(name: string, value: V)
      modifies this
      ensures fields == if subscribed then old(fields)[name := value] else old(fields)
      ensures files == old(files) && completions == old(completions)
    {
      if subscribed {
        fields := fields[name := value];
      }
    }

    /** The 'file' handler, reading the engine's `multiples` option at the time of the event. */
    method OnFile(multiples: bool, name: string, file: F)
      modifies this
      ensures files == if subscribed then old(files)[name := Added(multiples, Lookup(old(files), name), file)] else old(files)
      ensures subscribed && !multiples ==> files[name] == Single(file)
      ensures subscribed && multiples && name !in old(files) ==> files[name] == Single(file)
      ensures subscribed && multiples && name in old(files) && old(files)[name].Single?
           ==> files[name] == Many([old(files)[name].file, file])
      ensures subscribed && multiples && name in old(files) && old(files)[name].Many?
           ==> files[name] == Many(old(files)[name].files + [file])
      ensures forall k :: k != name && k in old(files) ==> k in files && files[k] == old(files)[k]
      ensures fields == old(fields) && completions == old(completions)
    {
      if subscribed {
        if multiples {
          if name in files {
            var entry := files[name];
            assert Lookup(old(files), name) == Some(entry);
            if !entry.Many? {
              files := files[name := Many([entry.file])];
              assert [entry.file] + [file] == [entry.file, file];
            }
            ghost var converted := files;
            assert converted == old(files)[name := if entry.Many? then entry else Many([entry.file])];
            files := files[name := Many(files[name].files + [file])];
            assert files == old(files)[name := Many(converted[name].files + [file])];
          } else {
            files := files[name := Single(file)];
          }
        } else {
          files := files[name := Single(file)];
        }
      }
    }

    /** The 'error' handler: `cb(err, fields, files)`. */
    method OnError(err: Error)
      modifies this
      ensures completions == if subscribed then old(completions) + [Completion(Some(err), fields, files)] else old(completions)
      ensures fields == old(fields) && files == old(files)
    {
      if subscribed {
        completions := completions + [Completion(Some(err), fields, files)];
      }
    }

    /** The 'end' handler: `cb(null, fields, files)`. */
    method OnEnd()
      modifies this
      ensures completions == if subscribed then old(completions) + [Completion(None, fields, files)] else old(completions)
      ensures fields == old(fields) && files == old(files)
    {
      if subscribed {
        completions := completions + [Completion(None, fields, files)];
      }
    }

    method Dispatch(multiples: bool, n: Notification<V, F>)
      modifies this
      ensures State() == Deliver(subscribed, multiples, old(State()), n)
    {
      match n
      case Field(name, value) => OnField(name, value);
      case File(name, file) => OnFile(multiples, name, file);
      case Failed(err) => OnError(err);
      case Finished => OnEnd();
    }

    /** The engine's notifications, handled one at a time as the event loop delivers them. */
    method Run(multiples: bool, ns: seq<Notification<V, F>>)
      modifies this
      ensures State() == DeliverAll(subscribed, multiples, old(State()), ns)
    {
      var i := 0;
      while i < |ns|
        invariant 0 <= i <= |ns|
        invariant DeliverAll(subscribed, multiples, State(), ns[i..]) == DeliverAll(subscribed, multiples, old(State()), ns)
      {
        assert ns[i..][1..] == ns[i + 1..];
        Dispatch(multiples, ns[i]);
        i := i + 1;
      }
      assert ns[i..] == [];
    }
  }

}
