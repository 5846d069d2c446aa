/**
 * `JsonSave` of utils/json_save.py (json_save.py is the same file): a
 * key-value store kept as one JSON object per file, where every operation
 * reads the whole file, changes the dictionary and writes it back.
 *
 * The file system is a map from path to what the file holds: nothing, text
 * that does not decode (a zero-byte file included), or an object. Writing a
 * dictionary and reading it back gives the same dictionary; the text layer
 * (indentation, key order) is not modelled.
 */
module JsonSave {
  import opened Wrappers

  datatype Json =
    | JNull
    | JBool(b: bool)
    | JNumber(n: real)
    | JString(s: string)
    | JArray(items: seq<Json>)
    | JObject(fields: map<string, Json>)

  /** Python truthiness of a decoded value: null, false, 0, "", [] and {} are false. */
  predicate Truthy(v: Json) {
    match v
    case JNull => false
    case JBool(b) => b
    case JNumber(n) => n != 0.0
    case JString(s) => s != ""
    case JArray(items) => items != []
    case JObject(fields) => fields != map[]
  }

  type Path = string
  type Dict = map<string, Json>

  datatype FileState = Missing | EmptyOrCorrupt | Obj(data: Dict)

  type Files = map<Path, FileState>

  /** What `json.load` raises for a file that does not decode, and what `del data[key]` raises. */
  datatype SaveError = DecodeError | KeyError(key: string)

  /** The file system after an operation, and what the operation returned or raised. */
  datatype Outcome<T> = Outcome(files: Files, result: Result<T, SaveError>)

  function At(files: Files, path: Path): FileState {
    if path in files then files[path] else Missing
  }

  /** The dictionary `get_contents` reads from a file state: {} unless the file holds an object. */
  function DictOf(f: FileState): Dict {
    if f.Obj? then f.data else map[]
  }

  /** `set_contents`: the file is truncated, and the dictionary written only if it is non-empty. */
  function SetContentsFs(files: Files, path: Path, contents: Dict): (r: Files)
    ensures At(r, path) == if contents == map[] then EmptyOrCorrupt else Obj(contents)
    ensures forall p :: p != path ==> At(r, p) == At(files, p)
  {
    files[path := if contents == map[] then EmptyOrCorrupt else Obj(contents)]
  }

  /**
   * `get_contents`: a missing file is created (empty, since {} is not written)
   * and {} returned; a file that does not decode reads as {}.
   */
  function GetContentsFs(files: Files, path: Path): (r: (Files, Dict))
    ensures r.1 == DictOf(At(files, path))
    ensures At(files, path).Missing? ==> r.0 == files[path := EmptyOrCorrupt]
    ensures !At(files, path).Missing? ==> r.0 == files
  {
    match At(files, path)
    case Missing => (SetContentsFs(files, path, map[]), map[])
    case EmptyOrCorrupt => (files, map[])
    case Obj(data) => (files, data)
  }

  /** `save`: read, set the key, write back. */
  function SaveFs(files: Files, path: Path, key: string, value: Json): (r: Files)
    ensures At(r, path) == Obj(DictOf(At(files, path))[key := value])
    ensures forall p :: p != path ==> At(r, p) == At(files, p)
  {
    var (f1, data) := GetContentsFs(files, path);
    assert key in data[key := value];
    SetContentsFs(f1, path, data[key := value])
  }

  /**
   * `load`: a missing file is first created holding {key: default}; a file
   * that does not decode raises; an absent or falsy value is replaced by the
   * default, which is saved and returned.
   */
  function LoadFs(files: Files, path: Path, key: string, default: Json): (r: Outcome<Json>)
    ensures r.result.Err? <==> At(files, path) == EmptyOrCorrupt
    ensures r.result.Err? ==> r.result.error == DecodeError && r.files == files
    ensures r.result.Ok? ==> r.result.value == default || Truthy(r.result.value)
    ensures r.result.Ok? ==> At(r.files, path).Obj? && key in At(r.files, path).data
                             && At(r.files, path).data[key] == r.result.value
    ensures forall p :: p != path ==> At(r.files, p) == At(files, p)
  {
    var f1 := if At(files, path).Missing? then SaveFs(files, path, key, default) else files;
    match At(f1, path)
    case Obj(data) =>
      var value := if key in data then data[key] else JNull;
      if !Truthy(value) then Outcome(SaveFs(f1, path, key, default), Ok(default))
      else Outcome(f1, Ok(value))
    case _ => Outcome(f1, Err(DecodeError))
  }

  /** `delete_key`: read (creating a missing file), delete the key, write back. */
  function DeleteKeyFs(files: Files, path: Path, key: string): (r: Outcome<()>)
    ensures r.result.Err? <==> key !in DictOf(At(files, path))
    ensures r.result.Err? ==> r.result.error == KeyError(key)
    ensures key !in DictOf(At(r.files, path))
    ensures forall p :: p != path ==> At(r.files, p) == At(files, p)
  {
    var (f1, data) := GetContentsFs(files, path);
    if key !in data then Outcome(f1, Err(KeyError(key)))
    else Outcome(SetContentsFs(f1, path, data - {key}), Ok(()))
  }

  /** `delete_file`: the file is removed if it exists. */
  function DeleteFileFs(files: Files, path: Path): (r: Files)
    ensures At(r, path).Missing?
    ensures forall p :: p != path ==> At(r, p) == At(files, p)
    ensures path !in files ==> r == files
  {
    files - {path}
  }

  /** Loading from a missing file creates it holding {key: default} and returns the default. */
  lemma LoadMissing(files: Files, path: Path, key: string, default: Json)
    requires At(files, path).Missing?
    ensures LoadFs(files, path, key, default) == Outcome(files[path := Obj(map[key := default])], Ok(default))
  {
    assert map[key := default][key := default] == map[key := default];
  }

  /** A truthy stored value is returned and the file is left as it is. */
  lemma LoadTruthy(files: Files, path: Path, key: string, default: Json)
    requires At(files, path).Obj? && key in At(files, path).data && Truthy(At(files, path).data[key])
    ensures LoadFs(files, path, key, default) == Outcome(files, Ok(At(files, path).data[key]))
  {
  }

  /**
   * An absent or falsy stored value (null, false, 0, "", [], {}) is replaced
   * by the default, the other keys are kept, and the default is returned.
   */
  lemma LoadFalsy(files: Files, path: Path, key: string, default: Json)
    requires At(files, path).Obj?
    requires key !in At(files, path).data || !Truthy(At(files, path).data[key])
    ensures var r := LoadFs(files, path, key, default);
            && r.result == Ok(default)
            && At(r.files, path) == Obj(At(files, path).data[key := default])
            && forall p :: p != path ==> At(r.files, p) == At(files, p)
  {
  }

  /** A file that does not decode makes `load` raise, while `get_contents` reads it as {}. */
  lemma CorruptFileAsymmetry(files: Files, path: Path, key: string, default: Json)
    requires At(files, path) == EmptyOrCorrupt
    ensures LoadFs(files, path, key, default) == Outcome(files, Err(DecodeError))
    ensures GetContentsFs(files, path) == (files, map[])
  {
  }

  /**
   * `save` maps the key to the value and keeps every other key of the file
   * (starting from {} when the file is missing or does not decode), and no
   * other file changes.
   */
  lemma SaveKeepsOtherKeys(files: Files, path: Path, key: string, value: Json)
    ensures var r := SaveFs(files, path, key, value);
            var old_ := DictOf(At(files, path));
            && At(r, path).Obj?
            && At(r, path).data[key] == value
            && (forall k :: k != key ==> (k in At(r, path).data <==> k in old_))
            && (forall k :: k != key && k in old_ ==> At(r, path).data[k] == old_[k])
  {
  }

  /**
   * Saving and then loading the same key gives back the saved value when it
   * is truthy; a falsy one comes back as the default, which is then stored.
   */
  lemma SaveThenLoad(files: Files, path: Path, key: string, value: Json, default: Json)
    ensures var saved := SaveFs(files, path, key, value);
            Truthy(value) ==> LoadFs(saved, path, key, default) == Outcome(saved, Ok(value))
    ensures var saved := SaveFs(files, path, key, value);
            !Truthy(value) ==>
              LoadFs(saved, path, key, default) == Outcome(SaveFs(files, path, key, default), Ok(default))
  {
    var saved := SaveFs(files, path, key, value);
    var d := DictOf(At(files, path));
    assert At(saved, path) == Obj(d[key := value]);
    if !Truthy(value) {
      assert d[key := value][key := default] == d[key := default];
      assert SaveFs(saved, path, key, default) == SaveFs(files, path, key, default);
    }
  }

  /** Reading a missing file creates a zero-byte file and returns {}. */
  lemma GetContentsMissing(files: Files, path: Path)
    requires At(files, path).Missing?
    ensures GetContentsFs(files, path) == (files[path := EmptyOrCorrupt], map[])
  {
  }

  /**
   * `delete_key` raises on an absent key (a missing file is still created);
   * otherwise it removes only that key, and removing the last key leaves a
   * zero-byte file.
   */
  lemma DeleteKeyCases(files: Files, path: Path, key: string)
    ensures var r := DeleteKeyFs(files, path, key);
            var d := DictOf(At(files, path));
            && (key !in d ==> r == Outcome(GetContentsFs(files, path).0, Err(KeyError(key))))
            && (key in d ==> r.result.Ok? && At(r.files, path) == (if d.Keys == {key} then EmptyOrCorrupt else Obj(d - {key})))
            && (forall p :: p != path ==> At(r.files, p) == At(files, p))
  {
    var d := DictOf(At(files, path));
    if key in d && d.Keys == {key} {
      assert d - {key} == map[];
    } else if key in d {
      assert key !in (d - {key}) && (d - {key}).Keys != {};
      assert exists k :: k in d && k != key;
      var k :| k in d && k != key;
      assert k in d - {key};
    }
  }

  /** Deleting a key just saved to a non-empty object file that lacked it restores the file. */
  lemma SaveThenDeleteKey(files: Files, path: Path, key: string, value: Json)
    requires At(files, path).Obj? && At(files, path).data != map[] && key !in At(files, path).data
    ensures DeleteKeyFs(SaveFs(files, path, key, value), path, key) == Outcome(files[path := At(files, path)], Ok(()))
  {
    var d := At(files, path).data;
    assert d[key := value] - {key} == d;
  }

  /** The store of utils/json_save.py over a file system held in memory. */
  class JsonStore {
    var files: Files

    constructor (files: Files)
      ensures this.files == files
    {
      this.files := files;
    }

    /** `JsonSave.set_contents`; an empty dictionary stands for `None` as well. */
    method SetContents(path: Path, contents: Dict)
      modifies this
      ensures files == SetContentsFs(old(files), path, contents)
    {
      if contents != map[] {
        files := files[path := Obj(contents)];
      } else {
        files := files[path := EmptyOrCorrupt];
      }
    }

    /** `JsonSave.get_contents`. */
    method GetContents(path: Path) returns (data: Dict)
      modifies this
      ensures (files, data) == GetContentsFs(old(files), path)
    {
      if At(files, path).Missing? {
        SetContents(path, map[]);
        return map[];
      }
      match At(files, path) {
        case Obj(d) => data := d;
        case _ => data := map[];
      }
    }

    /** `JsonSave.clear_contents`: the file is truncated to zero bytes. */
    method ClearContents(path: Path)
      modifies this
      ensures files == old(files)[path := EmptyOrCorrupt]
    {
      SetContents(path, map[]);
    }

    /** `JsonSave.save`. */
    method Save(path: Path, key: string, value: Json)
      modifies this
      ensures files == SaveFs(old(files), path, key, value)
    {
      var data := GetContents(path);
      data := data[key := value];
      SetContents(path, data);
    }

    /** `JsonSave.load`. */
    method Load(path: Path, key: string, default: Json) returns (r: Result<Json, SaveError>)
      modifies this
      ensures Outcome(files, r) == LoadFs(old(files), path, key, default)
    {
      var value := default;
      if At(files, path).Missing? {
        Save(path, key, default);
      }
      var st := At(files, path);
      if !st.Obj? {
        return Err(DecodeError);
      }
      value := if key in st.data then st.data[key] else JNull;
      if !Truthy(value) {
        value := default;
        Save(path, key, default);
      }
      r := Ok(value);
    }

    /** `JsonSave.delete_key`. */
    method DeleteKey(path: Path, key: string) returns (r: Result<(), SaveError>)
      modifies this
      ensures Outcome(files, r) == DeleteKeyFs(old(files), path, key)
    {
      var data := GetContents(path);
      if key !in data {
        return Err(KeyError(key));
      }
      data := data - {key};
      SetContents(path, data);
      r := Ok(());
    }

    /** `JsonSave.delete_file`. */
    method DeleteFile(path: Path)
      modifies this
      ensures files == DeleteFileFs(old(files), path)
    {
      if path in files {
        files := files - {path};
      }
    }
  }
}
