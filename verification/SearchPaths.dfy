/**
 Parrot's search paths: the unshift loops of mod_parrot.pir and the order in which
 modparrot_init runs them.
*/
module SearchPaths {
  import opened Options
  import opened Texts

  /** Parrot's split on a colon; nothing comes of the empty string. */
  function Split(s: string): seq<string> {
    if s == "" then [] else Fields(s, ':')
  }

  /** Splitting and joining undo each other. */
  lemma SplitJoin(s: string, paths: seq<string>)
    ensures Join(Split(s), ':') == s
    ensures paths != [""] && (forall i :: 0 <= i < |paths| ==> ':' !in paths[i]) ==> Split(Join(paths, ':')) == paths
  {
    if s != "" {
      JoinFields(s, ':');
    }
    if paths != [] && paths != [""] && forall i :: 0 <= i < |paths| ==> ':' !in paths[i] {
      FieldsOfJoin(paths, ':');
      assert Join(paths, ':') != "" by {
        assert |paths| > 1 ==> Join(paths, ':')[|paths[0]|] == ':';
      }
    }
  }

  /** What prepending the paths of s does to a search path, seen as a string. */
  lemma PrependedString(s: string, path: seq<string>)
    requires s != ""
    ensures Join(Split(s) + path, ':') == if path == [] then s else s + ":" + Join(path, ':')
  {
    SplitJoin(s, []);
    if path == [] {
      assert Split(s) + path == Split(s);
    } else {
      JoinAppend(Split(s), path, ':');
    }
  }

  /** interp[.IGLOBALS_LIB_PATHS]: the include, library and dynamic extension paths. */
  class LibPaths {
    var slots: seq<seq<string>>

    constructor (slots: seq<seq<string>>)
      requires |slots| == 3
      ensures this.slots == slots
    {
      this.slots := slots;
    }

    /** The loop the three subs share; None is the exception of indexing an empty list. */
    method Prepend(slot: nat, pathstring: string) returns (count: Option<nat>)
      requires slot < |slots|
      modifies this
      ensures pathstring == "" ==> count.None? && slots == old(slots)
      ensures pathstring != "" ==> count == Some(|Split(pathstring)|)
      ensures pathstring != "" ==> slots == old(slots)[slot := Split(pathstring) + old(slots)[slot]]
    {
      var pathlist := Split(pathstring);
      var i := |pathlist|;
      if i == 0 {
        return None;
      }
      assert pathlist[i..] + slots[slot] == slots[slot];
      while i > 0
        invariant 0 <= i <= |pathlist| && |slots| == |old(slots)|
        invariant slots == old(slots)[slot := pathlist[i..] + old(slots)[slot]]
      {
        i := i - 1;
        assert [pathlist[i]] + (pathlist[i + 1..] + old(slots)[slot]) == pathlist[i..] + old(slots)[slot];
        slots := slots[slot := [pathlist[i]] + slots[slot]];
      }
      count := Some(|pathlist|);
    }

    /** One path setting of modparrot_init; false where a Parrot exception ends the start. */
    method Apply(slot: nat, setting: Option<string>) returns (ok: bool)
      requires slot < |slots|
      modifies this
      ensures (slots, ok) == Applied(old(slots), slot, setting)
    {
      if setting.None? {
        return true;
      }
      var n := Prepend(slot, setting.value);
      ok := n.Some?;
    }

    /** The path settings of modparrot_init.  The include path goes where the library path
        goes. */
    method InitPaths(includePath: Option<string>, libPath: Option<string>, dynextPath: Option<string>)
      returns (ok: bool)
      requires |slots| == 3
      modifies this
      ensures (slots, ok) == Initial(old(slots), includePath, libPath, dynextPath)
    {
      ok := Apply(1, includePath);
      if ok {
        ok := Apply(1, libPath);
      }
      if ok {
        ok := Apply(2, dynextPath);
      }
    }
  }

  /** A setting made leads its slot; an empty one is an exception and changes nothing. */
  function Applied(slots: seq<seq<string>>, slot: nat, setting: Option<string>): (seq<seq<string>>, bool)
    requires slot < |slots|
  {
    if setting.None? then (slots, true)
    else if setting.value == "" then (slots, false)
    else (slots[slot := Split(setting.value) + slots[slot]], true)
  }

  /** The settings in their order, up to the first exception. */
  function Initial(slots: seq<seq<string>>, includePath: Option<string>, libPath: Option<string>,
                   dynextPath: Option<string>): (seq<seq<string>>, bool)
    requires |slots| == 3
  {
    var (s1, ok1) := Applied(slots, 1, includePath);
    if !ok1 then (s1, false)
    else
      var (s2, ok2) := Applied(s1, 1, libPath);
      if !ok2 then (s2, false) else Applied(s2, 2, dynextPath)
  }

  /** The start goes through exactly when no setting is the empty string.  However far it
      gets, library settings lead include settings, which lead what was there; a setting
      counts if no setting up to and including it was empty. */
  lemma InitialPaths(slots: seq<seq<string>>, includePath: Option<string>, libPath: Option<string>,
                     dynextPath: Option<string>)
    requires |slots| == 3
    ensures var (after, ok) := Initial(slots, includePath, libPath, dynextPath);
            var go1 := includePath != Some("");
            var go2 := go1 && libPath != Some("");
            && (ok <==> go2 && dynextPath != Some("")) && |after| == 3 && after[0] == slots[0]
            && after[1] == (if go2 then Paths(libPath) else []) + (if go1 then Paths(includePath) else []) + slots[1]
            && after[2] == (if ok then Paths(dynextPath) else []) + slots[2]
  {
    var inc, lib := Paths(includePath), Paths(libPath);
    assert lib + (inc + slots[1]) == lib + inc + slots[1];
    assert [] + inc + slots[1] == inc + slots[1] && [] + [] + slots[1] == slots[1] && [] + slots[2] == slots[2];
    assert lib + [] + slots[1] == lib + slots[1];
  }

  function Paths(setting: Option<string>): seq<string> {
    if setting.Some? then Split(setting.value) else []
  }

  /** After a start with both settings made, library_path_str is the library setting, the
      include setting and the original path, colons between. */
  lemma LibraryPathString(libPath: string, includePath: string, path: seq<string>)
    requires libPath != "" && includePath != ""
    ensures Join(Paths(Some(libPath)) + Paths(Some(includePath)) + path, ':')
            == libPath + ":" + if path == [] then includePath else includePath + ":" + Join(path, ':')
  {
    var rest := Split(includePath) + path;
    assert Split(libPath) + Split(includePath) + path == Split(libPath) + rest;
    PrependedString(includePath, path);
    PrependedString(libPath, rest);
  }
}
