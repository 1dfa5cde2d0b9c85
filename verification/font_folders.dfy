/** How the form finds its fonts (`load_fonts` in app.py): every
    sub-folder of the fonts folder is a family; in it, the last `.ttf` file
    whose name mentions "italic" is the italic face and the last other `.ttf`
    file whose name mentions "regular" is the regular face. A family is
    offered only when it has a regular face, and its italic face falls back
    to the regular one. */
module FontFolders {
  import opened Text

  datatype Option<T> = None | Some(value: T)

  /** An entry of a folder listing: a sub-folder with the names of its
      entries, or anything else. */
  datatype Entry = Folder(name: string, files: seq<string>) | Other(name: string)

  /** The two font files of a family. */
  datatype FontPaths = FontPaths(regular: string, italic: string)

  function JoinPath(dir: string, name: string): string {
    dir + "/" + name
  }

  /** A `.ttf` file whose name, in lower case, mentions "italic". */
  predicate IsItalicFile(file: string) {
    Contains(Lower(file), "italic") && EndsWith(Lower(file), ".ttf")
  }

  /** A `.ttf` file that is not an italic one and whose name, in lower case,
      mentions "regular". */
  predicate IsRegularFile(file: string) {
    !IsItalicFile(file) && Contains(Lower(file), "regular") && EndsWith(Lower(file), ".ttf")
  }

  /** The index of the last file satisfying `p`, if any. */
  function LastMatch(files: seq<string>, p: string -> bool): (r: Option<nat>)
    ensures r.None? <==> forall i :: 0 <= i < |files| ==> !p(files[i])
    ensures r.Some? ==> r.value < |files| && p(files[r.value])
                        && forall j :: r.value < j < |files| ==> !p(files[j])
  {
    if files == [] then None
    else if p(files[|files| - 1]) then Some(|files| - 1)
    else LastMatch(files[..|files| - 1], p)
  }

  /** The path of the file at an index, if any. */
  function PathOf(folderPath: string, files: seq<string>, index: Option<nat>): Option<string>
    requires index.Some? ==> index.value < |files|
  {
    if index.Some? then Some(JoinPath(folderPath, files[index.value])) else None
  }

  /** The inner loop of `load_fonts`: scan the files of one family folder. */
  method ClassifyFolder(folderPath: string, files: seq<string>) returns (regular: Option<string>, italic: Option<string>)
    ensures regular == PathOf(folderPath, files, LastMatch(files, IsRegularFile))
    ensures italic == PathOf(folderPath, files, LastMatch(files, IsItalicFile))
  {
    regular, italic := None, None;
    for i := 0 to |files|
      invariant regular == PathOf(folderPath, files[..i], LastMatch(files[..i], IsRegularFile))
      invariant italic == PathOf(folderPath, files[..i], LastMatch(files[..i], IsItalicFile))
    {
      var lower := Lower(files[i]);
      if Contains(lower, "italic") && EndsWith(lower, ".ttf") {
        italic := Some(JoinPath(folderPath, files[i]));
      } else if Contains(lower, "regular") && EndsWith(lower, ".ttf") {
        regular := Some(JoinPath(folderPath, files[i]));
      }
      assert files[..i + 1][..i] == files[..i];
    }
    assert files[..|files|] == files;
  }

  /** The entry `load_fonts` records for one family folder: present only
      when a regular face was found; without an italic face the regular one
      stands in for it. */
  function FamilyFonts(folderPath: string, files: seq<string>): (r: Option<FontPaths>)
    ensures r.Some? <==> exists i :: 0 <= i < |files| && IsRegularFile(files[i])
  {
    var regular := PathOf(folderPath, files, LastMatch(files, IsRegularFile));
    var italic := PathOf(folderPath, files, LastMatch(files, IsItalicFile));
    if regular.Some? then Some(FontPaths(regular.value, if italic.Some? then italic.value else regular.value))
    else None
  }

  /** Which files a family's faces are: the regular face is the last regular
      file of the folder, the italic face the last italic file, or the
      regular face when there is none. */
  lemma FamilyFontsChoice(folderPath: string, files: seq<string>)
    requires exists i :: 0 <= i < |files| && IsRegularFile(files[i])
    ensures var fonts := FamilyFonts(folderPath, files).value;
            exists i :: 0 <= i < |files| && IsRegularFile(files[i])
                        && fonts.regular == JoinPath(folderPath, files[i])
                        && forall j :: i < j < |files| ==> !IsRegularFile(files[j])
    ensures var fonts := FamilyFonts(folderPath, files).value;
            (exists i :: 0 <= i < |files| && IsItalicFile(files[i])) ==>
              exists i :: 0 <= i < |files| && IsItalicFile(files[i])
                          && fonts.italic == JoinPath(folderPath, files[i])
                          && forall j :: i < j < |files| ==> !IsItalicFile(files[j])
    ensures var fonts := FamilyFonts(folderPath, files).value;
            (forall i :: 0 <= i < |files| ==> !IsItalicFile(files[i])) ==> fonts.italic == fonts.regular
  {
    var fonts := FamilyFonts(folderPath, files).value;
    var ri := LastMatch(files, IsRegularFile);
    assert fonts.regular == JoinPath(folderPath, files[ri.value]);
    var ii := LastMatch(files, IsItalicFile);
    if ii.Some? {
      assert fonts.italic == JoinPath(folderPath, files[ii.value]);
    }
  }

  /** What one entry of the fonts folder contributes: the fonts of a family
      folder with a regular face, nothing otherwise. */
  function EntryFonts(fontsDir: string, e: Entry): Option<FontPaths> {
    if e.Folder? then FamilyFonts(JoinPath(fontsDir, e.name), e.files) else None
  }

  /** The table built from a listing when each entry contributes
      `contribution(e)` under its name; a later entry of the same name
      replaces an earlier one, as a dictionary assignment does. */
  function Collect(entries: seq<Entry>, contribution: Entry -> Option<FontPaths>): map<string, FontPaths> {
    if entries == [] then map[]
    else
      var table := Collect(entries[..|entries| - 1], contribution);
      var e := entries[|entries| - 1];
      var fonts := contribution(e);
      if fonts.Some? then table[e.name := fonts.value] else table
  }

  /** The family table after the given listing of the fonts folder. */
  function FontTable(fontsDir: string, entries: seq<Entry>): map<string, FontPaths> {
    Collect(entries, e => EntryFonts(fontsDir, e))
  }

  lemma {:induction false} CollectKeys(entries: seq<Entry>, contribution: Entry -> Option<FontPaths>, name: string)
    ensures name in Collect(entries, contribution) <==>
              exists k :: 0 <= k < |entries| && entries[k].name == name && contribution(entries[k]).Some?
    decreases |entries|
  {
    if entries != [] {
      var n := |entries| - 1;
      var prefix := entries[..n];
      CollectKeys(prefix, contribution, name);
      if exists k :: 0 <= k < n && prefix[k].name == name && contribution(prefix[k]).Some? {
        var k :| 0 <= k < n && prefix[k].name == name && contribution(prefix[k]).Some?;
        assert entries[k] == prefix[k];
      }
      if exists k :: 0 <= k < |entries| && entries[k].name == name && contribution(entries[k]).Some? {
        var k :| 0 <= k < |entries| && entries[k].name == name && contribution(entries[k]).Some?;
        if k < n {
          assert prefix[k] == entries[k];
        }
      }
    }
  }

  lemma {:induction false} CollectEntry(entries: seq<Entry>, contribution: Entry -> Option<FontPaths>, k: nat)
    requires forall i, j :: 0 <= i < j < |entries| ==> entries[i].name != entries[j].name
    requires k < |entries| && contribution(entries[k]).Some?
    ensures entries[k].name in Collect(entries, contribution)
    ensures Collect(entries, contribution)[entries[k].name] == contribution(entries[k]).value
    decreases |entries|
  {
    var n := |entries| - 1;
    if k < n {
      CollectEntry(entries[..n], contribution, k);
      assert entries[..n][k] == entries[k];
    }
  }

  /** `load_fonts` over a listing of the fonts folder (an
      absent folder lists as empty). */
  method LoadFonts(fontsDir: string, entries: seq<Entry>) returns (fonts: map<string, FontPaths>)
    ensures fonts == FontTable(fontsDir, entries)
  {
    fonts := map[];
    for k := 0 to |entries|
      invariant fonts == FontTable(fontsDir, entries[..k])
    {
      var entry := entries[k];
      if entry.Folder? {
        var folderPath := JoinPath(fontsDir, entry.name);
        var regular, italic := ClassifyFolder(folderPath, entry.files);
        if regular.Some? {
          fonts := fonts[entry.name := FontPaths(regular.value, if italic.Some? then italic.value else regular.value)];
        }
      }
      assert entries[..k + 1][..k] == entries[..k];
    }
    assert entries[..|entries|] == entries;
  }

  /** A family is offered exactly when some folder of that name has a
      regular face. */
  lemma FontTableKeys(fontsDir: string, entries: seq<Entry>, name: string)
    ensures name in FontTable(fontsDir, entries) <==>
              exists k :: 0 <= k < |entries| && entries[k].name == name && EntryFonts(fontsDir, entries[k]).Some?
  {
    CollectKeys(entries, e => EntryFonts(fontsDir, e), name);
  }

  /** With distinct names in the listing (as a folder listing has), the
      family of a folder is exactly what its own files give. */
  lemma FontTableEntry(fontsDir: string, entries: seq<Entry>, k: nat)
    requires forall i, j :: 0 <= i < j < |entries| ==> entries[i].name != entries[j].name
    requires k < |entries| && EntryFonts(fontsDir, entries[k]).Some?
    ensures entries[k].name in FontTable(fontsDir, entries)
    ensures FontTable(fontsDir, entries)[entries[k].name] == EntryFonts(fontsDir, entries[k]).value
  {
    CollectEntry(entries, e => EntryFonts(fontsDir, e), k);
  }
}
