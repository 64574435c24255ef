/** How extension names are derived: from the files of the extensions directory (drop the
    ".py" suffix), from the keys of the bot's extension registry (drop the "extensions."
    prefix), and back to the module id handed to the loader (put the prefix back). Also the
    `str.join` the core uses to build texts and the line split that reads one back. */
module ExtensionNames {

  const PySuffix: string := ".py"
  const ModulePrefix: string := "extensions."

  /** `s.endswith(".py")` */
  predicate EndsWithPy(s: string) {
    |s| >= |PySuffix| && s[|s| - |PySuffix|..] == PySuffix
  }

  /** `entry[:-3]` on a file name that ends in ".py". */
  function StripPy(entry: string): (name: string)
    requires EndsWithPy(entry)
    ensures name + PySuffix == entry
  {
    entry[..|entry| - |PySuffix|]
  }

  predicate HasModulePrefix(key: string) {
    |key| >= |ModulePrefix| && key[..|ModulePrefix|] == ModulePrefix
  }

  /** `key[11:]`: the first eleven characters dropped, whatever they are; a key shorter than
      that gives the empty string, as Python's slice does. */
  function StripModulePrefix(key: string): (name: string)
    ensures |key| < |ModulePrefix| ==> name == ""
    ensures |key| >= |ModulePrefix| ==> key == key[..|ModulePrefix|] + name
    ensures HasModulePrefix(key) ==> ModulePrefix + name == key
  {
    if |key| < |ModulePrefix| then "" else key[|ModulePrefix|..]
  }

  /** `f"extensions.{name}"`: the module id the loader is asked for. */
  function ModuleId(name: string): (id: string)
    ensures HasModulePrefix(id)
    ensures StripModulePrefix(id) == name
  {
    ModulePrefix + name
  }

  /** The directory entries that the comprehensions keep: those ending in ".py", in listing order. */
  function PyFiles(entries: seq<string>): (files: seq<string>)
    ensures |files| <= |entries|
    ensures forall f :: f in files <==> f in entries && EndsWithPy(f)
  {
    if entries == [] then []
    else if EndsWithPy(entries[0]) then [entries[0]] + PyFiles(entries[1..])
    else PyFiles(entries[1..])
  }

  /** `[e[:-3] for e in entries if e.endswith(".py")]`: the names offered for loading. Putting
      ".py" back on each name gives exactly the kept directory entries, in the same order. */
  function Discoverable(entries: seq<string>): (names: seq<string>)
    ensures |names| == |PyFiles(entries)|
    ensures forall i :: 0 <= i < |names| ==> names[i] + PySuffix == PyFiles(entries)[i]
  {
    if entries == [] then []
    else if EndsWithPy(entries[0]) then [StripPy(entries[0])] + Discoverable(entries[1..])
    else Discoverable(entries[1..])
  }

  /** The filter keeps listing order: the ".py" files of two listings one after the other are
      those of the first listing followed by those of the second. */
  lemma {:induction false} PyFilesAppend(a: seq<string>, b: seq<string>)
    ensures PyFiles(a + b) == PyFiles(a) + PyFiles(b)
  {
    if a == [] {
      assert a + b == b;
    } else {
      assert (a + b)[1..] == a[1..] + b;
      PyFilesAppend(a[1..], b);
    }
  }

  /** A name is offered for loading exactly when the directory holds that name with ".py". */
  lemma DiscoverableMembership(entries: seq<string>, name: string)
    ensures name in Discoverable(entries) <==> name + PySuffix in entries
  {
  }

  /** `[k[11:] for k in keys]`: the names offered for unloading or reloading. */
  function LoadedNames(keys: seq<string>): (names: seq<string>)
    ensures |names| == |keys|
    ensures forall i :: 0 <= i < |keys| && HasModulePrefix(keys[i]) ==> ModuleId(names[i]) == keys[i]
  {
    if keys == [] then [] else [StripModulePrefix(keys[0])] + LoadedNames(keys[1..])
  }

  /** When every registry key carries the "extensions." prefix (every module this bot loads
      does), the names offered are exactly those whose module id is a key. */
  lemma LoadedMembership(keys: seq<string>, name: string)
    requires forall k :: k in keys ==> HasModulePrefix(k)
    ensures name in LoadedNames(keys) <==> ModuleId(name) in keys
  {
  }

  /** `sep.join(parts)`: nothing joined is empty, and a single part is given back whatever the
      separator. */
  function Join(parts: seq<string>, sep: string): (s: string)
    ensures parts == [] ==> s == ""
    ensures |parts| == 1 ==> s == parts[0]
  {
    if |parts| == 0 then ""
    else if |parts| == 1 then parts[0]
    else parts[0] + sep + Join(parts[1..], sep)
  }

  /** `s.split("\n")` */
  function Lines(s: string): (lines: seq<string>)
    ensures |lines| >= 1
  {
    if |s| == 0 then [""]
    else
      var rest := Lines(s[1..]);
      if s[0] == '\n' then [""] + rest else [[s[0]] + rest[0]] + rest[1..]
  }

  predicate NoNewline(s: string) {
    forall i :: 0 <= i < |s| ==> s[i] != '\n'
  }

  lemma {:induction false} LinesOfLine(line: string)
    requires NoNewline(line)
    ensures Lines(line) == [line]
    decreases |line|
  {
    if |line| > 0 {
      LinesOfLine(line[1..]);
      assert [line[0]] + line[1..] == line;
    }
  }

  lemma {:induction false} LinesOfLineThen(line: string, rest: string)
    requires NoNewline(line)
    ensures Lines(line + "\n" + rest) == [line] + Lines(rest)
    decreases |line|
  {
    var s := line + "\n" + rest;
    if |line| == 0 {
      assert s[1..] == rest;
    } else {
      assert s[1..] == line[1..] + "\n" + rest;
      LinesOfLineThen(line[1..], rest);
      assert [line[0]] + line[1..] == line;
    }
  }

  /** Splitting a newline-joined list of newline-free names gives the names back, one per
      line and in order. */
  lemma {:induction false} LinesOfJoin(parts: seq<string>)
    requires |parts| > 0
    requires forall i :: 0 <= i < |parts| ==> NoNewline(parts[i])
    ensures Lines(Join(parts, "\n")) == parts
  {
    if |parts| == 1 {
      LinesOfLine(parts[0]);
    } else {
      LinesOfJoin(parts[1..]);
      LinesOfLineThen(parts[0], Join(parts[1..], "\n"));
      assert [parts[0]] + parts[1..] == parts;
    }
  }
}
