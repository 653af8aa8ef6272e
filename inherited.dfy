/**
 * The multiples branch of the 'file' handler (lib/index.js lines 16-24) as
 * JavaScript evaluates it on the plain object `files = {}`: `files[name]`
 * finds not only the table's own entries but also the members every object
 * inherits from Object.prototype, so "is there an entry yet?" answers yes for
 * a name such as "constructor" before any file arrived under it.
 */
module FilesAsWritten {

  import opened Wrappers
  import Aggregation

  /**
   * The names a plain object answers through Object.prototype with a
   * function, which is truthy and not an array. (`__proto__`, an accessor, is
   * not included.)
   */
  const InheritedNames: set<string> := {
    "constructor", "hasOwnProperty", "isPrototypeOf", "propertyIsEnumerable",
    "toLocaleString", "toString", "valueOf",
    "__defineGetter__", "__defineSetter__", "__lookupGetter__", "__lookupSetter__"
  }

  /** What an array in the table can hold: an uploaded file, or the inherited member that was wrapped. */
  datatype Item<F> = Uploaded(file: F) | InheritedMember(name: string)

  /** A value `files[name]` can evaluate to. */
  datatype Slot<F> = Bare(item: Item<F>) | List(items: seq<Item<F>>)

  /** `files[name]`: an own entry, else the inherited member, else undefined. */
  function Read<F>(own: map<string, Slot<F>>, name: string): (r: Option<Slot<F>>)
    ensures name in own ==> r == Some(own[name])
    ensures name !in own ==> (r.Some? <==> name in InheritedNames)
  {
    if name in own then Some(own[name])
    else if name in InheritedNames then Some(Bare(InheritedMember(name)))
    else None
  }

  /**
   * One 'file' event with `multiples` on, as written: truthiness test, wrap
   * unless an array, push. The file is stored bare exactly when the name has
   * neither an own nor an inherited entry; otherwise it is appended as the last item of an array. No
   * other own key changes.
   */
  function AddFileAsWritten<F>(own: map<string, Slot<F>>, name: string, file: F): (r: map<string, Slot<F>>)
    ensures r.Keys == own.Keys + {name}
    ensures forall k :: k in own && k != name ==> r[k] == own[k]
    ensures r[name] == Bare(Uploaded(file)) <==> name !in own && name !in InheritedNames
    ensures r[name].List? ==> |r[name].items| >= 1 && r[name].items[|r[name].items| - 1] == Uploaded(file)
  {
    match Read(own, name)
    case None => own[name := Bare(Uploaded(file))]
    case Some(Bare(x)) => own[name := List([x, Uploaded(file)])]
    case Some(List(xs)) => own[name := List(xs + [Uploaded(file)])]
  }

  /**
   * The discrepancy: the first file uploaded under the name "constructor" is
   * not stored bare; it is stored as the two-element array `[Object, file]`.
   */
  lemma FirstConstructorFileIsWrapped<F>(file: F)
    ensures AddFileAsWritten(map[], "constructor", file)["constructor"]
         == List([InheritedMember("constructor"), Uploaded(file)])
    ensures AddFileAsWritten(map[], "constructor", file)["constructor"] != Bare(Uploaded(file))
  {
  }

  /** A corrected entry in the as-written representation. */
  function Embed<F>(e: Aggregation.FileEntry<F>): Slot<F>
  {
    match e
    case Single(f) => Bare(Uploaded(f))
    case Many(fs) => List(EmbedAll(fs))
  }

  function EmbedAll<F>(fs: seq<F>): (items: seq<Item<F>>)
    ensures |items| == |fs|
    ensures forall k :: 0 <= k < |fs| ==> items[k] == Uploaded(fs[k])
  {
    if fs == [] then [] else [Uploaded(fs[0])] + EmbedAll(fs[1..])
  }

  function EmbedTable<F>(files: map<string, Aggregation.FileEntry<F>>): map<string, Slot<F>>
  {
    map k | k in files :: Embed(files[k])
  }

  /**
   * For every name that is not inherited, the code as written does exactly
   * what the corrected model (own-key lookup, Aggregation.Added) does.
   */
  lemma AgreesOffInheritedNames<F>(files: map<string, Aggregation.FileEntry<F>>, name: string, file: F)
    requires name !in InheritedNames
    ensures AddFileAsWritten(EmbedTable(files), name, file)
         == EmbedTable(files[name := Aggregation.Added(true, Aggregation.Lookup(files, name), file)])
  {
    var entry := Aggregation.Added(true, Aggregation.Lookup(files, name), file);
    assert Embed(entry) == AddFileAsWritten(EmbedTable(files), name, file)[name] by {
      if name in files && files[name].Many? {
        var fs := files[name].files;
        assert EmbedAll(fs + [file]) == EmbedAll(fs) + [Uploaded(file)];
      } else if name in files {
        assert EmbedAll([files[name].file, file]) == [Uploaded(files[name].file), Uploaded(file)];
      }
    }
  }

}
