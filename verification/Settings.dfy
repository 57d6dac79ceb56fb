/** Reading a comma-separated list from the environment. */
module Settings {
  import opened Text

  /** The trimmed, non-blank entries of a list, in order. */
  function Entries(parts: seq<string>): seq<string>
  {
    if parts == [] then []
    else
      var last := TrimSpace(parts[|parts| - 1]);
      Entries(parts[..|parts| - 1]) + if last != "" then [last] else []
  }

  /** `getEnvAsSlice`: an unset variable gives the default, anything else is split at commas. */
  method GetEnvAsSlice(value: string, defaultValue: seq<string>) returns (result: seq<string>)
    ensures value == "" ==> result == defaultValue
    ensures value != "" ==> result == Entries(Split(value, ','))
  {
    if value == "" {
      return defaultValue;
    }
    var parts := Split(value, ',');
    result := [];
    for i := 0 to |parts|
      invariant result == Entries(parts[..i])
    {
      var trimmed := TrimSpace(parts[i]);
      assert parts[..i + 1][..i] == parts[..i];
      if trimmed != "" {
        result := result + [trimmed];
      }
    }
    assert parts[..|parts|] == parts;
  }

  /** No entry is empty, and none is dropped or invented: entries are the non-blank pieces. */
  lemma {:induction false} EntriesAreNonBlankPieces(parts: seq<string>, entry: string)
    ensures entry in Entries(parts) <==> entry != "" && exists i :: 0 <= i < |parts| && TrimSpace(parts[i]) == entry
  {
    hide TrimSpace;
    if parts != [] {
      var front := parts[..|parts| - 1];
      EntriesAreNonBlankPieces(front, entry);
      assert forall i :: 0 <= i < |front| ==> front[i] == parts[i];
      if i :| 0 <= i < |parts| && TrimSpace(parts[i]) == entry {
        if i < |front| {
          assert TrimSpace(front[i]) == entry;
        }
      }
    }
  }

  lemma {:induction false} EntriesConcat(a: seq<string>, b: seq<string>)
    ensures Entries(a + b) == Entries(a) + Entries(b)
  {
    hide TrimSpace;
    if b == [] {
      assert a + b == a;
    } else {
      assert (a + b)[..|a + b| - 1] == a + b[..|b| - 1];
      EntriesConcat(a, b[..|b| - 1]);
    }
  }

  /** One piece: what stands between the spaces, if anything does. */
  lemma EntriesOne(l: string, entry: string, r: string)
    requires All(l, IsSpace) && All(r, IsSpace) && Bare(entry, IsSpace)
    ensures Entries([l + entry + r]) == if entry == "" then [] else [entry]
  {
    TrimSpaceOf(l, entry, r);
    hide TrimSpace;
    assert [l + entry + r][..0] == [];
  }

  lemma TrimSpaceOf(l: string, entry: string, r: string)
    requires All(l, IsSpace) && All(r, IsSpace) && Bare(entry, IsSpace)
    ensures TrimSpace(l + entry + r) == entry
  {
    TrimOf(l, entry, r, IsSpace);
  }

  /** A list written with commas is read back as it was, in order and with its repetitions. */
  lemma ListIsReadBack(items: seq<string>)
    requires items != []
    requires forall i :: 0 <= i < |items| ==> items[i] != "" && ',' !in items[i] && Bare(items[i], IsSpace)
    ensures Entries(Split(Join(items, ','), ',')) == items
  {
    JoinSplits(items, ',');
    AllEntries(items);
  }

  lemma {:induction false} AllEntries(items: seq<string>)
    requires forall i :: 0 <= i < |items| ==> items[i] != "" && Bare(items[i], IsSpace)
    ensures Entries(items) == items
  {
    if items != [] {
      var last := items[|items| - 1];
      AllEntries(items[..|items| - 1]);
      TrimSpaceOf("", last, "");
      assert "" + last + "" == last;
    }
  }

  /** The list is empty exactly when every piece is blank, although the variable may be set. */
  lemma EmptyExactlyWhenBlank(parts: seq<string>)
    ensures Entries(parts) == [] <==> forall i :: 0 <= i < |parts| ==> TrimSpace(parts[i]) == ""
  {
    if Entries(parts) != [] {
      var entry := Entries(parts)[0];
      EntriesAreNonBlankPieces(parts, entry);
    }
    if i :| 0 <= i < |parts| && TrimSpace(parts[i]) != "" {
      EntriesAreNonBlankPieces(parts, TrimSpace(parts[i]));
    }
  }
}
