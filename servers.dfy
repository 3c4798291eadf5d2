/** The language-server settings record of the manager: the table of
    language names it knows, the record's constructor (which puts a
    lower-case known name back in its usual spelling), its display string,
    and the wrap-around row navigation of the settings table. */
module Servers {
  import opened Json
  import Decimal

  /** The languages offered in the settings, in their usual spelling. */
  const LSP_LANGUAGES: seq<string> := [
    "C#", "CSS/LESS/SASS", "Go", "GraphQL", "Groovy", "Haxe", "HTML",
    "Java", "JavaScript", "JSON", "Julia", "OCaml", "PHP",
    "Python", "Rust", "Scala", "Swift", "TypeScript", "Erlang"
  ]

  /** `str.lower()` on one character. Every language name above is ASCII,
      so ASCII case mapping is all the table needs. */
  function LowerChar(c: char): (r: char)
    ensures 'A' <= c <= 'Z' ==> r as int == c as int + 32
    ensures !('A' <= c <= 'Z') ==> r == c
  {
    if 'A' <= c <= 'Z' then (c as int + 32) as char else c
  }

  function Lower(s: string): (r: string)
    ensures |r| == |s|
    ensures forall i :: 0 <= i < |s| ==> r[i] == LowerChar(s[i])
  {
    seq(|s|, i requires 0 <= i < |s| => LowerChar(s[i]))
  }

  /** `{x.lower(): x for x in names}`: the comprehension inserts the names
      in order, so a later name wins over an earlier one with the same
      lower-case form. */
  function NameTable(names: seq<string>): (m: map<string, string>)
    ensures names != [] ==> Lower(names[|names| - 1]) in m && m[Lower(names[|names| - 1])] == names[|names| - 1]
    decreases |names|
  {
    if names == [] then map[]
    else
      var last := names[|names| - 1];
      NameTable(names[..|names| - 1])[Lower(last) := last]
  }

  const LSP_LANGUAGE_NAME: map<string, string> := NameTable(LSP_LANGUAGES)

  /** The table holds exactly the lower-case forms of the names, and each
      maps to a name of that form. */
  lemma {:induction false} NameTableEntries(names: seq<string>, key: string)
    ensures key in NameTable(names) <==> exists i :: 0 <= i < |names| && Lower(names[i]) == key
    ensures key in NameTable(names) ==>
      exists i :: 0 <= i < |names| && Lower(names[i]) == key && NameTable(names)[key] == names[i]
    decreases |names|
  {
    if names != [] {
      var init := names[..|names| - 1];
      var last := |names| - 1;
      NameTableEntries(init, key);
      if Lower(names[last]) != key && key in NameTable(init) {
        var i :| 0 <= i < |init| && Lower(init[i]) == key && NameTable(init)[key] == init[i];
        assert names[i] == init[i];
      }
      if exists i :: 0 <= i < |names| && Lower(names[i]) == key {
        var i :| 0 <= i < |names| && Lower(names[i]) == key;
        if i < last {
          assert init[i] == names[i];
        }
      }
    }
  }

  /** When no two names share a lower-case form, every name is found under
      its lower-case form. */
  lemma NameTableLookup(names: seq<string>, i: nat)
    requires i < |names|
    requires forall j, k :: 0 <= j < k < |names| ==> Lower(names[j]) != Lower(names[k])
    ensures Lower(names[i]) in NameTable(names) && NameTable(names)[Lower(names[i])] == names[i]
  {
    NameTableEntries(names, Lower(names[i]));
  }

  /** `LSPServer`: the configuration of one language server. `language`
      is None when the record was built without one. */
  datatype LSPServer = LSPServer(
    index: int,
    language: Option<string>,
    cmd: string,
    args: string,
    configurations: Value,
    port: int,
    host: string,
    external: bool)

  /** The spelling the constructor keeps: a key of the name table is
      replaced by its table entry, anything else is kept as given. */
  function NormalizeLanguage(table: map<string, string>, language: Option<string>): (r: Option<string>)
    ensures r.None? <==> language.None?
    ensures language.Some? && language.value !in table ==> r == language
    ensures language.Some? && language.value in table ==> r == Some(table[language.value])
  {
    match language
    case None => None
    case Some(l) => if l in table then Some(table[l]) else Some(l)
  }

  /** `LSPServer.__init__` with its default arguments. */
  function NewServer(language: Option<string>, cmd: string := "", host: string := "127.0.0.1",
                     port: int := 2084, args: string := "", external: bool := false,
                     configurations: Value := Obj(map[])): (s: LSPServer)
    ensures s.index == 0
    ensures s.language == NormalizeLanguage(LSP_LANGUAGE_NAME, language)
    ensures s.cmd == cmd && s.host == host && s.port == port && s.args == args
    ensures s.external == external && s.configurations == configurations
  {
    LSPServer(0, NormalizeLanguage(LSP_LANGUAGE_NAME, language), cmd, args,
              configurations, port, host, external)
  }

  /** Normalising twice is normalising once when no table entry is itself
      a key of the table. */
  lemma NormalizeLanguageIdempotent(table: map<string, string>, language: Option<string>)
    requires forall k :: k in table ==> table[k] !in table
    ensures NormalizeLanguage(table, NormalizeLanguage(table, language))
      == NormalizeLanguage(table, language)
  {
  }

  /** Every language name of the table is spelled with a capital letter
      first, so no canonical name is itself a lower-case key. */
  lemma NameTableValuesNotKeys(names: seq<string>)
    requires forall i :: 0 <= i < |names| ==> |names[i]| > 0 && 'A' <= names[i][0] <= 'Z'
    ensures forall k :: k in NameTable(names) ==> NameTable(names)[k] !in NameTable(names)
  {
    forall k | k in NameTable(names)
      ensures NameTable(names)[k] !in NameTable(names)
    {
      NameTableEntries(names, k);
      var i :| 0 <= i < |names| && Lower(names[i]) == k && NameTable(names)[k] == names[i];
      var v := names[i];
      forall j | 0 <= j < |names|
        ensures Lower(names[j]) != v
      {
        assert Lower(names[j])[0] == LowerChar(names[j][0]);
      }
      NameTableEntries(names, v);
    }
  }

  /** A server built twice from its own language keeps the same spelling. */
  lemma NewServerIdempotent(language: Option<string>)
    ensures NewServer(NewServer(language).language).language == NewServer(language).language
  {
    assert forall i :: 0 <= i < |LSP_LANGUAGES| ==>
      |LSP_LANGUAGES[i]| > 0 && 'A' <= LSP_LANGUAGES[i][0] <= 'Z';
    NameTableValuesNotKeys(LSP_LANGUAGES);
    NormalizeLanguageIdempotent(LSP_LANGUAGE_NAME, language);
  }

  /** The language as `format` prints it; Python prints a missing one as
      `None`. */
  function LanguageText(language: Option<string>): string {
    match language
    case None => "None"
    case Some(l) => l
  }

  /** `host:port`, as the display shows it. */
  function Address(s: LSPServer): string {
    s.host + ":" + Decimal.IntToString(s.port)
  }

  /** The slices of a three-part concatenation are its parts. */
  lemma ConcatSlices(a: string, b: string, c: string)
    ensures (a + (b + c))[..|a|] == a
    ensures (a + (b + c))[|a|..|a| + |b|] == b
  {
    var r := a + (b + c);
    assert forall i :: 0 <= i < |b| ==> r[|a| + i] == b[i];
  }

  /** `LSPServer.__repr__`: `[language] cmd args (host:port)`, or
      `[language] host:port` for an external server. */
  function Repr(s: LSPServer): (r: string)
    ensures |r| > |LanguageText(s.language)| + 2
    ensures r[..|LanguageText(s.language)| + 2] == "[" + LanguageText(s.language) + "]"
  {
    var tag := "[" + LanguageText(s.language) + "]";
    var rest := if s.external then Address(s) else s.cmd + (" " + s.args + " (" + Address(s) + ")");
    ConcatSlices(tag, " ", rest);
    tag + (" " + rest)
  }

  /** An external server's display leaves out the command and its
      arguments: changing them does not change the string. */
  lemma ReprExternalOmitsCommand(s: LSPServer, cmd: string, args: string)
    requires s.external
    ensures Repr(s.(cmd := cmd, args := args)) == Repr(s)
    ensures |Repr(s)| == |LanguageText(s.language)| + |s.host| + |Decimal.IntToString(s.port)| + 4
  {
  }

  /** A local server's display shows its command right after the
      language tag. */
  lemma ReprShowsCommand(s: LSPServer)
    requires !s.external
    ensures var n := |LanguageText(s.language)| + 3;
      |Repr(s)| >= n + |s.cmd| && Repr(s)[n..n + |s.cmd|] == s.cmd
  {
    var tag := "[" + LanguageText(s.language) + "]";
    var tail := " " + s.args + " (" + Address(s) + ")";
    assert Repr(s) == tag + (" " + (s.cmd + tail));
    assert tag + (" " + (s.cmd + tail)) == (tag + " ") + (s.cmd + tail);
    ConcatSlices(tag + " ", s.cmd, tail);
  }

  /** `next_row`: the row after `row`, the first row after the last. */
  function NextRow(row: int, rows: int): (r: int)
    ensures 0 <= row < rows ==> 0 <= r < rows
  {
    if row + 1 == rows then 0 else row + 1
  }

  /** `previous_row`: the row before `row`, the last row before the first. */
  function PreviousRow(row: int, rows: int): (r: int)
    ensures 0 <= row < rows ==> 0 <= r < rows
  {
    if row == 0 then rows - 1 else row - 1
  }

  /** Moving down is adding one modulo the row count, and moving up is
      subtracting one. */
  lemma RowsWrapAround(row: int, rows: int)
    requires 0 <= row < rows
    ensures NextRow(row, rows) == (row + 1) % rows
    ensures PreviousRow(row, rows) == (row - 1) % rows
  {
    if row + 1 < rows {
      assert (row + 1) % rows == row + 1;
    }
    if row > 0 {
      assert (row - 1) % rows == row - 1;
    } else {
      assert (row - 1) % rows == rows - 1 by {
        assert -1 == (-1) * rows + (rows - 1);
      }
    }
  }

  /** Moving down then up, or up then down, comes back to the same row. */
  lemma RowsInverse(row: int, rows: int)
    requires 0 <= row < rows
    ensures PreviousRow(NextRow(row, rows), rows) == row
    ensures NextRow(PreviousRow(row, rows), rows) == row
  {
  }
}
