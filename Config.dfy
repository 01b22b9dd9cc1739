/**
 * Assembly of the project configuration from an already-parsed configuration
 * file: the project is copied, notebook entries that are tables with a string
 * `path` become notebook configurations, and the contract map stays empty.
 */
module Config {
  import opened Wrappers

  /** A TOML value. A table is the sequence of its entries in iteration order. */
  datatype Value =
    | String(s: string)
    | Integer(i: int)
    | Float(f: real)
    | Boolean(b: bool)
    | Datetime(text: string)
    | Array(items: seq<Value>)
    | Table(entries: seq<(string, Value)>)

  datatype ProjectConfig = ProjectConfig(name: string)

  datatype PaperConfigFile = PaperConfigFile(project: ProjectConfig, contracts: Option<Value>, notebooks: Option<Value>)

  datatype ContractConfig = ContractConfig(version: string, path: string)

  datatype NotebookConfig = NotebookConfig(name: string, path: string)

  datatype PaperConfig =
    PaperConfig(project: ProjectConfig, contracts: map<string, ContractConfig>, notebooks: seq<NotebookConfig>)

  /** Table lookup: the value of the first entry with the key. */
  function Get(entries: seq<(string, Value)>, key: string): (r: Option<Value>)
    ensures r.None? <==> forall i :: 0 <= i < |entries| ==> entries[i].0 != key
    ensures r.Some? ==> exists i :: 0 <= i < |entries| && entries[i] == (key, r.value)
  {
    if entries == [] then None
    else if entries[0].0 == key then Some(entries[0].1)
    else Get(entries[1..], key)
  }

  /** A notebook entry counts when it is a table whose `path` is a string. */
  ghost predicate IsNotebook(settings: Value) {
    settings.Table? && Get(settings.entries, "path").Some? && Get(settings.entries, "path").value.String?
  }

  /** The notebook configuration one table entry yields: none, or one. */
  ghost function NotebookOf(entry: (string, Value)): seq<NotebookConfig> {
    if IsNotebook(entry.1) then [NotebookConfig(entry.0, Get(entry.1.entries, "path").value.s)] else []
  }

  /** The notebook configurations of a notebook table, in iteration order. */
  ghost function Notebooks(entries: seq<(string, Value)>): seq<NotebookConfig> {
    if entries == [] then [] else NotebookOf(entries[0]) + Notebooks(entries[1..])
  }

  /** The notebook configurations of the file's `notebooks` value: none unless it is a table. */
  ghost function NotebooksOf(notebooks: Option<Value>): seq<NotebookConfig> {
    match notebooks
    case Some(Table(entries)) => Notebooks(entries)
    case _ => []
  }

  lemma {:induction false} NotebooksAppend(a: seq<(string, Value)>, b: seq<(string, Value)>)
    ensures Notebooks(a + b) == Notebooks(a) + Notebooks(b)
  {
    if a == [] {
      assert a + b == b;
    } else {
      calc {
        Notebooks(a + b);
        { assert (a + b)[0] == a[0]; assert (a + b)[1..] == a[1..] + b; }
        NotebookOf(a[0]) + Notebooks(a[1..] + b);
        { NotebooksAppend(a[1..], b); }
        NotebookOf(a[0]) + (Notebooks(a[1..]) + Notebooks(b));
      }
    }
  }

  /**
   * Builds the configuration. Contract entries are looked at but never
   * inserted, so the contract map is always empty.
   */
  method FromConfigFile(file: PaperConfigFile) returns (config: PaperConfig)
    ensures config.project == file.project
    ensures config.contracts == map[]
    ensures config.notebooks == NotebooksOf(file.notebooks)
  {
    var notebooks: seq<NotebookConfig> := [];
    match file.notebooks {
      case Some(Table(entries)) =>
        for i := 0 to |entries|
          invariant notebooks == Notebooks(entries[..i])
        {
          var (name, settings) := entries[i];
          NotebooksSnoc(entries, i);
          match settings {
            case Table(fields) =>
              var path := Get(fields, "path");
              if !(path.Some? && path.value.String?) {
                continue;
              }
              notebooks := notebooks + [NotebookConfig(name, path.value.s)];
            case _ =>
          }
        }
        assert entries[..|entries|] == entries;
      case _ =>
    }
    config := PaperConfig(file.project, map[], notebooks);
  }

  lemma NotebooksSnoc(entries: seq<(string, Value)>, i: nat)
    requires i < |entries|
    ensures Notebooks(entries[..i + 1]) == Notebooks(entries[..i]) + NotebookOf(entries[i])
  {
    assert entries[..i + 1] == entries[..i] + [entries[i]];
    NotebooksAppend(entries[..i], [entries[i]]);
    assert [entries[i]][1..] == [];
  }

  /** At most one notebook per table entry. */
  lemma {:induction false} NotebooksBound(entries: seq<(string, Value)>)
    ensures |Notebooks(entries)| <= |entries|
  {
    if entries != [] {
      NotebooksBound(entries[1..]);
    }
  }

  /**
   * Every notebook comes from an entry with that name whose settings are a
   * table with that path, and every such entry yields its notebook.
   */
  lemma {:induction false} NotebooksMembership(entries: seq<(string, Value)>, n: NotebookConfig)
    ensures n in Notebooks(entries) <==>
              exists i :: 0 <= i < |entries| && entries[i].0 == n.name && IsNotebook(entries[i].1)
                          && Get(entries[i].1.entries, "path") == Some(String(n.path))
  {
    if entries != [] {
      NotebooksMembership(entries[1..], n);
      if n in Notebooks(entries[1..]) {
        var i :| 0 <= i < |entries[1..]| && entries[1..][i].0 == n.name && IsNotebook(entries[1..][i].1)
                 && Get(entries[1..][i].1.entries, "path") == Some(String(n.path));
        assert entries[1..][i] == entries[i + 1];
      }
      if exists i :: 0 <= i < |entries| && entries[i].0 == n.name && IsNotebook(entries[i].1)
                     && Get(entries[i].1.entries, "path") == Some(String(n.path)) {
        var i :| 0 <= i < |entries| && entries[i].0 == n.name && IsNotebook(entries[i].1)
                 && Get(entries[i].1.entries, "path") == Some(String(n.path));
        if i > 0 {
          assert entries[1..][i - 1] == entries[i];
        }
      }
    }
  }

  /** Entries that are not notebooks (not tables, no `path`, or a `path` that is not a string) are skipped. */
  lemma {:induction false} NotebooksSkipNonNotebooks(entries: seq<(string, Value)>)
    requires forall i :: 0 <= i < |entries| ==> !IsNotebook(entries[i].1)
    ensures Notebooks(entries) == []
  {
    if entries != [] {
      NotebooksSkipNonNotebooks(entries[1..]);
    }
  }
}
