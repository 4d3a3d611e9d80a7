/** The capability headers of a lease request (protocol.go): written by the runner, read by the server. */
module RunnerHeaders {
  import opened Prelude
  import E = Entitlement
  import L = Leases
  import Tables

  // --- Strings -------------------------------------------------------------------------

  predicate Blank(c: char) { c == ' ' || c == '\t' || c == '\n' || c == '\r' }

  function TrimLeft(s: string): string { if s != "" && Blank(s[0]) then TrimLeft(s[1..]) else s }

  function TrimRight(s: string): string { if s != "" && Blank(s[|s| - 1]) then TrimRight(s[..|s| - 1]) else s }

  function Trim(s: string): string { TrimRight(TrimLeft(s)) }

  function Split(s: string): (parts: seq<string>)
    ensures |parts| >= 1
  {
    if s == "" then [""]
    else if s[0] == ',' then [""] + Split(s[1..])
    else
      var rest := Split(s[1..]);
      [[s[0]] + rest[0]] + rest[1..]
  }

  function Join(parts: seq<string>): string
  {
    if parts == [] then "" else if |parts| == 1 then parts[0] else parts[0] + "," + Join(parts[1..])
  }

  function Lower(s: string): string
  {
    if s == "" then "" else [if 'A' <= s[0] <= 'Z' then s[0] + 32 as char else s[0]] + Lower(s[1..])
  }

  // --- Reading -----------------------------------------------------------------------------

  /** The non-empty trimmed parts. */
  function Listed(parts: seq<string>): seq<string>
  {
    if parts == [] then []
    else
      var last := Trim(parts[|parts| - 1]);
      Listed(parts[..|parts| - 1]) + if last != "" then [last] else []
  }

  function Normalized(c: L.Capabilities): L.Capabilities
  {
    var known := if c.recipes == [] && c.stack == "" then c.(recipes := E.LEGACY_RECIPES, stack := E.INTERNAL) else c;
    if E.ValidStack(known.stack) then known else known.(stack := E.PUBLIC)
  }

  /** A word in a list, whatever its case. */
  predicate Mentions(list: string, word: string)
  {
    exists i :: 0 <= i < |Split(list)| && Lower(Trim(Split(list)[i])) == word
  }

  const TRANSCRIBE := "transcribe"

  method ParseRunner(features: string, recipes: string, stack: string) returns (c: L.Capabilities)
    ensures c == Parsed(features, recipes, stack)
  {
    var parts := Split(features);
    var transcribe := false;
    for i := 0 to |parts|
      invariant transcribe <==> exists k :: 0 <= k < i && Lower(Trim(parts[k])) == TRANSCRIBE
    {
      if Lower(Trim(parts[i])) == TRANSCRIBE {
        transcribe := true;
      }
    }
    var names := Split(recipes);
    var list: seq<string> := [];
    for i := 0 to |names|
      invariant list == Listed(names[..i])
    {
      assert names[..i + 1][..i] == names[..i];
      var name := Trim(names[i]);
      if name != "" {
        list := list + [name];
      }
    }
    assert names[..|names|] == names;
    c := Normalized(L.Capabilities(transcribe, list, Trim(stack)));
  }

  function Parsed(features: string, recipes: string, stack: string): L.Capabilities
  {
    Normalized(L.Capabilities(Mentions(features, TRANSCRIBE), Listed(Split(recipes)), Trim(stack)))
  }

  // --- What is written is what is read ----------------------------------------------------------

  /** A name that survives a comma-separated list. */
  predicate Clean(name: string)
  {
    name != "" && !Blank(name[0]) && !Blank(name[|name| - 1]) && ',' !in name
  }

  lemma {:induction false} SplitFirst(a: string, b: string)
    requires ',' !in a
    ensures Split(a + "," + b) == [a] + Split(b)
  {
    var s := a + "," + b;
    if a == "" {
      assert s[1..] == b;
    } else {
      SplitFirst(a[1..], b);
      assert s[1..] == a[1..] + "," + b;
      assert s[0] == a[0] && a[0] in a;
      assert [a[0]] + a[1..] == a;
      assert ([a[1..]] + Split(b))[1..] == Split(b);
    }
  }

  lemma {:induction false} SplitOne(a: string)
    requires ',' !in a
    ensures Split(a) == [a]
  {
    if a != "" {
      SplitOne(a[1..]);
      assert a[0] in a && [a[0]] + a[1..] == a;
    }
  }

  lemma {:induction false} SplitJoin(parts: seq<string>)
    requires parts != [] && forall i :: 0 <= i < |parts| ==> ',' !in parts[i]
    ensures Split(Join(parts)) == parts
  {
    if |parts| == 1 {
      SplitOne(parts[0]);
    } else {
      SplitJoin(parts[1..]);
      SplitFirst(parts[0], Join(parts[1..]));
      assert [parts[0]] + parts[1..] == parts;
    }
  }

  lemma TrimClean(name: string)
    requires Clean(name)
    ensures Trim(name) == name
  {
  }

  lemma {:induction false} ListedClean(parts: seq<string>)
    requires forall i :: 0 <= i < |parts| ==> Clean(parts[i])
    ensures Listed(parts) == parts
  {
    if parts != [] {
      ListedClean(parts[..|parts| - 1]);
      TrimClean(parts[|parts| - 1]);
    }
  }

  /** A list of clean recipe ids goes through the header unchanged. */
  lemma RecipesRoundTrip(recipes: seq<string>)
    requires forall i :: 0 <= i < |recipes| ==> Clean(recipes[i])
    ensures Listed(Split(Join(recipes))) == recipes
  {
    if recipes == [] {
      assert Split("") == [""] && Trim("") == "";
      assert [""][..0] == [];
    } else {
      SplitJoin(recipes);
      ListedClean(recipes);
    }
  }

  /** The headers RunOnce sends. */
  function Features(a: E.Runner): string { if a.transcribe then TRANSCRIBE else "" }

  function Recipes(a: E.Runner): string { if a.recipes.Some? then Join(a.recipes.value) else "" }

  function Stack(a: E.Runner): string { if a.recipes.Some? then a.stack else "" }

  lemma StackSurvives(stack: string)
    requires E.ValidStack(stack)
    ensures Trim(stack) == stack
  {
    TrimClean(stack);
  }

  lemma FeaturesSurvive(a: E.Runner)
    ensures Mentions(Features(a), TRANSCRIBE) == a.transcribe
  {
    if a.transcribe {
      WordIsMentioned(TRANSCRIBE);
    } else {
      NothingIsMentioned(TRANSCRIBE);
    }
  }

  lemma WordIsMentioned(word: string)
    requires Clean(word) && forall i :: 0 <= i < |word| ==> !('A' <= word[i] <= 'Z')
    ensures Mentions(word, word)
  {
    SplitOne(word);
    TrimClean(word);
    LowerStays(word);
    assert Split(word)[0] == word;
  }

  lemma NothingIsMentioned(word: string)
    requires word != ""
    ensures !Mentions("", word)
  {
    assert Split("") == [""] && Trim("") == "" && Lower("") == "";
  }

  lemma {:induction false} LowerStays(s: string)
    requires forall i :: 0 <= i < |s| ==> !('A' <= s[i] <= 'Z')
    ensures Lower(s) == s
  {
    if s != "" {
      LowerStays(s[1..]);
    }
  }

  /** What the server reads of a runner's headers is what the runner is, an old runner being taken for
      an internal one with the three presets. */
  lemma HeadersAnnounceTheRunner(r: E.Registry, a: E.Runner)
    requires E.Built(r, a) && (a.recipes.Some? ==> forall i :: 0 <= i < |a.recipes.value| ==> Clean(a.recipes.value[i]))
    ensures E.Announced(a, Parsed(Features(a), Recipes(a), Stack(a)))
  {
    FeaturesSurvive(a);
    if a.recipes.Some? {
      RecipesRoundTrip(a.recipes.value);
      StackSurvives(a.stack);
    } else {
      RecipesRoundTrip([]);
      assert Join([]) == "" && Trim("") == "";
    }
  }

  /** From the form to the runner: the lease the claim grants a runner on the strength of its headers,
      for a job that create wrote, is one the runner accepts. */
  lemma EveryGrantedLeaseIsAccepted(r: E.Registry, db: Tables.Db, id: Tables.JobId, max: int, a: E.Runner)
    requires E.Sound(r) && E.FromManifest(r) && E.HasPresets(r) && E.Built(r, a)
    requires a.recipes.Some? ==> forall i :: 0 <= i < |a.recipes.value| ==> Clean(a.recipes.value[i])
    requires L.Offered(db, id, max, Parsed(Features(a), Recipes(a), Stack(a))) && E.CreatedRow(r, db.jobs[id])
    ensures E.Accepts(r, a, E.LeaseFor(r, db.jobs[id]))
    ensures db.jobs[id].stack == E.PUBLIC ==> E.AllPublic(r, r.recipes[E.RecipeId(r, db.jobs[id])])
  {
    HeadersAnnounceTheRunner(r, a);
    E.GrantedLeasesAreAccepted(r, db, id, max, a, Parsed(Features(a), Recipes(a), Stack(a)));
  }
}
