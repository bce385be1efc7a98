/**
 * The chat list of the sidebar (frontend/src/main.ts:298-392): chat names
 * kept as one list, each chat's saved conversation kept under its own name,
 * and the selected chat.
 *
 * Local storage is a map from key to stored text; the name list under the
 * key "chatNames" and the selection under "currentChat" are held decoded,
 * in their own fields.
 */
module ChatList {
  import opened Wrappers
  import opened Text

  /** What createChat stores for a new chat: JSON.stringify({ messages: [] }). */
  const EmptyChat := "{\"messages\":[]}"

  predicate NoDuplicates(s: seq<string>) {
    forall i, j :: 0 <= i < j < |s| ==> s[i] != s[j]
  }

  /**
   * Array.from(new Set(s)): each name once, at the place it first occurs.
   */
  function Dedup(s: seq<string>): (r: seq<string>)
    ensures NoDuplicates(r)
    ensures forall x :: x in r <==> x in s
    ensures |r| <= |s|
  {
    if s == [] then []
    else
      var init, last := s[..|s| - 1], s[|s| - 1];
      assert s == init + [last];
      var d := Dedup(init);
      if last in d then d else d + [last]
  }

  /** A list without repeats is its own deduplication. */
  lemma {:induction false} DedupOfDistinct(s: seq<string>)
    requires NoDuplicates(s)
    ensures Dedup(s) == s
  {
    if s != [] {
      var init := s[..|s| - 1];
      assert NoDuplicates(init);
      DedupOfDistinct(init);
      assert s == init + [s[|s| - 1]];
    }
  }

  /**
   * Deduplication keeps first-occurrence order: deduplicating any prefix
   * gives a prefix of the whole result, so each name sits where it first
   * occurred, after every name that occurred before it.
   */
  lemma {:induction false} DedupKeepsFirstOccurrenceOrder(s: seq<string>, k: nat)
    requires k <= |s|
    ensures Dedup(s[..k]) <= Dedup(s)
    decreases |s|
  {
    if k == |s| {
      assert s[..k] == s;
    } else {
      var init := s[..|s| - 1];
      assert init[..k] == s[..k];
      DedupKeepsFirstOccurrenceOrder(init, k);
    }
  }

  /** For instance: ["b", "a", "b"] gives ["b", "a"], not ["a", "b"]. */
  lemma DedupOrderExample()
    ensures Dedup(["b", "a", "b"]) == ["b", "a"]
  {
    var s := ["b", "a", "b"];
    assert s[..2] == ["b", "a"] && s[..2][..1] == ["b"] && s[..2][..1][..0] == [];
  }

  /** The name list after createChat (lines 373-375): the set of old names with the new one added. */
  function CreatedNames(names: seq<string>, name: string): (r: seq<string>)
    ensures NoDuplicates(r)
    ensures forall x :: x in r <==> x in names || x == name
    ensures Dedup(names) <= r
  {
    var s := names + [name];
    assert s[..|names|] == names;
    DedupKeepsFirstOccurrenceOrder(s, |names|);
    Dedup(s)
  }

  /**
   * Creating keeps the deduplicated old list, appends the name only when it
   * is absent, and leaves every name exactly once.
   */
  lemma CreatedNamesShape(names: seq<string>, name: string)
    ensures CreatedNames(names, name) == if name in names then Dedup(names) else Dedup(names) + [name]
    ensures NoDuplicates(CreatedNames(names, name))
    ensures forall x :: x in CreatedNames(names, name) <==> x in names || x == name
  {
    var s := names + [name];
    assert s[..|s| - 1] == names;
  }

  /** Creating over an existing list of distinct names leaves it alone or appends the new one. */
  lemma CreatedOverDistinct(names: seq<string>, name: string)
    requires NoDuplicates(names)
    ensures CreatedNames(names, name) == if name in names then names else names + [name]
  {
    CreatedNamesShape(names, name);
    DedupOfDistinct(names);
  }

  /** The name list after a rename (line 330): every occurrence of `from` becomes `to`. */
  function RenamedNames(names: seq<string>, from: string, to: string): (r: seq<string>)
    ensures |r| == |names|
  {
    seq(|names|, i requires 0 <= i < |names| => if names[i] == from then to else names[i])
  }

  /**
   * Renaming to a different name replaces every occurrence and keeps every
   * other entry in its place.
   */
  lemma RenameReplacesEveryOccurrence(names: seq<string>, from: string, to: string)
    requires from != to
    ensures var r := RenamedNames(names, from, to);
      && from !in r
      && (to in r <==> to in names || from in names)
      && (forall i :: 0 <= i < |names| && names[i] == from ==> r[i] == to)
      && (forall i :: 0 <= i < |names| && names[i] != from ==> r[i] == names[i])
  {
    var r := RenamedNames(names, from, to);
    if to in names {
      var i :| 0 <= i < |names| && names[i] == to;
      assert r[i] == to;
    }
    if from in names {
      var i :| 0 <= i < |names| && names[i] == from;
      assert r[i] == to;
    }
  }

  /** The name list after deleteChat (line 344): every occurrence of the name is gone, the rest keep their order. */
  function DeletedNames(names: seq<string>, name: string): (r: seq<string>)
    ensures forall x :: x in r <==> x in names && x != name
    ensures |r| <= |names|
  {
    if names == [] then []
    else if names[0] == name then DeletedNames(names[1..], name)
    else [names[0]] + DeletedNames(names[1..], name)
  }

  /** Deleting distributes over concatenation: it only drops entries, never reorders them. */
  lemma {:induction false} DeletedNamesAppend(a: seq<string>, b: seq<string>, name: string)
    ensures DeletedNames(a + b, name) == DeletedNames(a, name) + DeletedNames(b, name)
    decreases |a|
  {
    if a == [] {
      assert a + b == b;
    } else {
      assert (a + b)[0] == a[0];
      assert (a + b)[1..] == a[1..] + b;
      DeletedNamesAppend(a[1..], b, name);
    }
  }

  /** Deleting from a list of distinct names leaves distinct names. */
  lemma {:induction false} DeletedKeepsDistinct(names: seq<string>, name: string)
    requires NoDuplicates(names)
    ensures NoDuplicates(DeletedNames(names, name))
    decreases |names|
  {
    if names != [] {
      assert NoDuplicates(names[1..]);
      DeletedKeepsDistinct(names[1..], name);
      assert names[0] !in names[1..];
    }
  }

  /** The stored conversations after createChat (line 376): the chat is reset to empty even if it existed. */
  function CreatedStore(store: map<string, string>, name: string): (r: map<string, string>)
    ensures r.Keys == store.Keys + {name} && r[name] == EmptyChat
    ensures forall k :: k in store && k != name ==> r[k] == store[k]
  {
    store[name := EmptyChat]
  }

  /**
   * The stored conversations after a rename (lines 327-328): the data moves
   * to the new key only when the old key holds non-empty text; otherwise
   * nothing changes.
   */
  function RenamedStore(store: map<string, string>, from: string, to: string): (r: map<string, string>)
    requires from != to
    ensures from in store && store[from] != "" ==>
              && r.Keys == store.Keys - {from} + {to} && r[to] == store[from]
              && forall k :: k in store && k != from && k != to ==> r[k] == store[k]
    ensures !(from in store && store[from] != "") ==> r == store
  {
    if from in store && store[from] != "" then store[to := store[from]] - {from} else store
  }

  /** The stored conversations after deleteChat (line 342). */
  function DeletedStore(store: map<string, string>, name: string): (r: map<string, string>)
    ensures r.Keys == store.Keys - {name}
    ensures forall k :: k in r ==> r[k] == store[k]
  {
    store - {name}
  }

  /**
   * The name a rename uses (line 325): the answer to the prompt, or the old
   * name when the prompt was cancelled or answered with nothing.
   */
  function RenameTarget(name: string, answer: Option<string>): (r: string)
    ensures answer.Some? && answer.value != "" ==> r == answer.value
    ensures answer.None? || answer.value == "" ==> r == name
  {
    match answer
    case Some(a) => if a != "" then a else name
    case None => name
  }

  /**
   * Renaming onto a name that already exists is not refused: the list then
   * holds that name at both places and its own conversation is replaced by
   * the moved one, when the old name had any.
   */
  lemma RenameOntoExisting(names: seq<string>, store: map<string, string>, from: string, to: string, i: nat, j: nat)
    requires from != to
    requires i < |names| && j < |names| && names[i] == from && names[j] == to
    ensures var r := RenamedNames(names, from, to);
      r[i] == to && r[j] == to && |r| == |names|
    ensures from in store && store[from] != "" ==>
      var m := RenamedStore(store, from, to);
      to in m && m[to] == store[from] && from !in m
  {
    RenameReplacesEveryOccurrence(names, from, to);
  }

  /** For instance, renaming "a" onto "b" in ["a", "b"]. */
  lemma RenameOntoExistingExample()
    ensures RenamedNames(["a", "b"], "a", "b") == ["b", "b"]
    ensures RenamedStore(map["a" := "A", "b" := "B"], "a", "b") == map["b" := "A"]
  {
    var r := RenamedNames(["a", "b"], "a", "b");
    assert r[0] == "b" && r[1] == "b";
    var m := RenamedStore(map["a" := "A", "b" := "B"], "a", "b");
    assert m.Keys == {"b"};
  }

  /**
   * The chat list as the page keeps it: the decoded name list, the stored
   * conversations, the selected chat and the selection saved under "currentChat".
   */
  class ChatStore {
    var names: seq<string>
    var store: map<string, string>
    var current: Option<string>
    var saved: Option<string>

    /** The page before any chat is selected, over whatever local storage holds. */
    constructor (storedNames: seq<string>, stored: map<string, string>, savedChat: Option<string>)
      ensures names == storedNames && store == stored && saved == savedChat && current.None?
    {
      names := storedNames;
      store := stored;
      saved := savedChat;
      current := None;
    }

    /**
     * The load handler (lines 441-442): a non-empty saved selection is
     * selected again, whether or not that chat still exists.
     */
    method Restore()
      modifies this
      ensures saved.Some? && saved.value != "" ==> current == saved
      ensures !(saved.Some? && saved.value != "") ==> current == old(current)
      ensures names == old(names) && store == old(store) && saved == old(saved)
    {
      if saved.Some? && saved.value != "" {
        Select(saved.value);
      }
    }

    /** selectChat (lines 382-384): the chat becomes current and is remembered. */
    method Select(name: string)
      modifies this
      ensures current == Some(name) && saved == Some(name)
      ensures names == old(names) && store == old(store)
    {
      current := Some(name);
      saved := Some(name);
    }

    /**
     * createChat (lines 369-380). Nothing happens without a selected persona
     * or with a blank name; otherwise the trimmed name is added once, its
     * conversation reset to empty, and the chat selected.
     */
    method Create(persona: string, input: string) returns (created: Option<string>)
      modifies this
      ensures persona == "" || Trim(input) == "" ==> created.None? && unchanged(this)
      ensures persona != "" && Trim(input) != "" ==>
                && created == Some(Trim(input))
                && names == CreatedNames(old(names), Trim(input))
                && store == CreatedStore(old(store), Trim(input))
                && current == Some(Trim(input)) && saved == Some(Trim(input))
    {
      if persona == "" {
        return None;
      }
      var name := Trim(input);
      if name == "" {
        return None;
      }
      names := CreatedNames(names, name);
      store := store[name := EmptyChat];
      Select(name);
      created := Some(name);
    }

    /**
     * The rename handler (lines 323-335) for the item created under `name`.
     * A different, non-empty target moves the data (when there is any),
     * renames every list entry and follows the selection; the saved
     * selection is not updated.
     */
    method Rename(name: string, answer: Option<string>)
      modifies this
      ensures var to := RenameTarget(name, answer);
        && (to != "" && to != name ==>
              && store == RenamedStore(old(store), name, to)
              && names == RenamedNames(old(names), name, to)
              && current == (if old(current) == Some(name) then Some(to) else old(current)))
        && (to == "" || to == name ==> unchanged(this))
        && saved == old(saved)
    {
      var to := RenameTarget(name, answer);
      if to != "" && to != name {
        if name in store && store[name] != "" {
          var data := store[name];
          store := store[to := data];
          store := store - {name};
        }
        names := RenamedNames(names, name, to);
        if current == Some(name) {
          current := Some(to);
        }
      }
    }

    /**
     * The delete handler (lines 339-352) for the item created under `name`:
     * its data and every list entry go; when it was the selected chat the
     * selection is cleared and the avatar session is to be torn down. The
     * saved selection is left as it was.
     */
    method Delete(name: string) returns (teardown: bool)
      modifies this
      ensures store == DeletedStore(old(store), name)
      ensures names == DeletedNames(old(names), name)
      ensures teardown == (old(current) == Some(name))
      ensures current == if teardown then None else old(current)
      ensures saved == old(saved)
    {
      store := store - {name};
      names := DeletedNames(names, name);
      teardown := current == Some(name);
      if teardown {
        current := None;
      }
    }
  }
}
