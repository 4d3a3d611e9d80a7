/**
 The model registry and its entitlement rule (models.go, verify.go), the
 choice a new job makes (handlers.go), and the runner's side of it (agent.go).
 */
module Entitlement {
  import opened Prelude
  import opened Tables
  import L = Leases
  import Queue
  import Stages

  const PUBLIC := "public"
  const INTERNAL := "internal"
  const DEMUCS := "demucs"
  const MSST := "msst"

  datatype Checkpoint = Checkpoint(id: string, tier: string, path: string, package: string, size: int, sha256: string, url: string)

  datatype Recipe = Recipe(id: string, engine: string, stemCount: int, checkpoints: seq<string>)

  type Stacks = map<string, map<string, string>>

  datatype Registry = Registry(checkpoints: map<string, Checkpoint>, recipes: map<string, Recipe>, stacks: Stacks, order: seq<Checkpoint>)

  predicate ValidStack(s: string) { s == PUBLIC || s == INTERNAL }

  /** Whether a job or runner of a stack may load checkpoints of a class. */
  predicate Allowed(stack: string, tier: string)
  {
    tier == PUBLIC || (tier == INTERNAL && stack == INTERNAL)
  }

  // --- Loading the manifest -----------------------------------------------------------

  /** A later checkpoint replaces an earlier one of the same id. */
  function CheckpointsById(list: seq<Checkpoint>): map<string, Checkpoint>
  {
    if list == [] then map[]
    else CheckpointsById(list[..|list| - 1])[list[|list| - 1].id := list[|list| - 1]]
  }

  function RecipesById(list: seq<Recipe>): map<string, Recipe>
  {
    if list == [] then map[] else RecipesById(list[..|list| - 1])[list[|list| - 1].id := list[|list| - 1]]
  }

  function Loaded(checkpoints: seq<Checkpoint>, recipes: seq<Recipe>, stacks: Stacks): Registry
  {
    Registry(CheckpointsById(checkpoints), RecipesById(recipes), stacks, checkpoints)
  }

  method Load(checkpoints: seq<Checkpoint>, recipes: seq<Recipe>, stacks: Stacks) returns (r: Registry, ok: bool)
    ensures r == Loaded(checkpoints, recipes, stacks) && ok == Sound(r)
  {
    var byId: map<string, Checkpoint> := map[];
    for i := 0 to |checkpoints|
      invariant byId == CheckpointsById(checkpoints[..i])
    {
      assert checkpoints[..i + 1][..i] == checkpoints[..i];
      byId := byId[checkpoints[i].id := checkpoints[i]];
    }
    var recipesById: map<string, Recipe> := map[];
    for i := 0 to |recipes|
      invariant recipesById == RecipesById(recipes[..i])
    {
      assert recipes[..i + 1][..i] == recipes[..i];
      recipesById := recipesById[recipes[i].id := recipes[i]];
    }
    assert checkpoints[..|checkpoints|] == checkpoints && recipes[..|recipes|] == recipes;
    r := Registry(byId, recipesById, stacks, checkpoints);
    ok := Validate(r);
  }

  // --- validate ---------------------------------------------------------------------------

  predicate Pinned(c: Checkpoint)
  {
    (c.tier == PUBLIC || c.tier == INTERNAL) && |c.sha256| == 64 && c.size > 0 && c.path != "" && c.url != ""
  }

  predicate RecipeOk(r: Registry, rc: Recipe)
  {
    && (rc.engine == DEMUCS || rc.engine == MSST) && (rc.stemCount == 4 || rc.stemCount == 6)
    && forall i :: 0 <= i < |rc.checkpoints| ==> rc.checkpoints[i] in r.checkpoints
  }

  /** The class a checkpoint id stands for; an unknown one has none. */
  function ClassOf(r: Registry, id: string): string { if id in r.checkpoints then r.checkpoints[id].tier else "" }

  predicate AllPublic(r: Registry, rc: Recipe)
  {
    forall i :: 0 <= i < |rc.checkpoints| ==> ClassOf(r, rc.checkpoints[i]) == PUBLIC
  }

  predicate OfferOk(r: Registry, stack: string, recipe: string)
  {
    recipe in r.recipes && (stack == PUBLIC ==> AllPublic(r, r.recipes[recipe]))
  }

  predicate StackOk(r: Registry, stack: string)
    requires stack in r.stacks
  {
    ValidStack(stack) && forall q :: q in r.stacks[stack] ==> OfferOk(r, stack, r.stacks[stack][q])
  }

  /** What validate accepts: every checkpoint pinned, every recipe of known checkpoints, and the
      public stack of public ones only. */
  predicate Sound(r: Registry)
  {
    && (forall i :: 0 <= i < |r.order| ==> Pinned(r.order[i]))
    && (forall id :: id in r.recipes ==> RecipeOk(r, r.recipes[id]))
    && (forall stack :: stack in r.stacks ==> StackOk(r, stack))
  }

  method ValidateRecipe(r: Registry, rc: Recipe) returns (ok: bool)
    ensures ok == RecipeOk(r, rc)
  {
    if rc.engine != DEMUCS && rc.engine != MSST {
      return false;
    }
    if rc.stemCount != 4 && rc.stemCount != 6 {
      return false;
    }
    for i := 0 to |rc.checkpoints|
      invariant forall k :: 0 <= k < i ==> rc.checkpoints[k] in r.checkpoints
    {
      if rc.checkpoints[i] !in r.checkpoints {
        return false;
      }
    }
    return true;
  }

  method ValidateOffer(r: Registry, stack: string, id: string) returns (ok: bool)
    ensures ok == OfferOk(r, stack, id)
  {
    if id !in r.recipes {
      return false;
    }
    if stack == PUBLIC {
      var rc := r.recipes[id];
      for i := 0 to |rc.checkpoints|
        invariant forall k :: 0 <= k < i ==> ClassOf(r, rc.checkpoints[k]) == PUBLIC
      {
        if ClassOf(r, rc.checkpoints[i]) != PUBLIC {
          return false;
        }
      }
    }
    return true;
  }

  method ValidateStack(r: Registry, stack: string) returns (ok: bool)
    requires stack in r.stacks
    ensures ok == StackOk(r, stack)
  {
    if stack != PUBLIC && stack != INTERNAL {
      return false;
    }
    var rest := r.stacks[stack].Keys;
    while rest != {}
      invariant rest <= r.stacks[stack].Keys
      invariant forall q :: q in r.stacks[stack] && q !in rest ==> OfferOk(r, stack, r.stacks[stack][q])
      decreases rest
    {
      var q :| q in rest;
      rest := rest - {q};
      var offered := ValidateOffer(r, stack, r.stacks[stack][q]);
      if !offered {
        return false;
      }
    }
    return true;
  }

  method Validate(r: Registry) returns (ok: bool)
    ensures ok == Sound(r)
  {
    for i := 0 to |r.order|
      invariant forall k :: 0 <= k < i ==> Pinned(r.order[k])
    {
      if !Pinned(r.order[i]) {
        return false;
      }
    }
    var recipes := r.recipes.Keys;
    while recipes != {}
      invariant recipes <= r.recipes.Keys
      invariant forall id :: id in r.recipes && id !in recipes ==> RecipeOk(r, r.recipes[id])
      decreases recipes
    {
      var id :| id in recipes;
      recipes := recipes - {id};
      ok := ValidateRecipe(r, r.recipes[id]);
      if !ok {
        return;
      }
    }
    var stacks := r.stacks.Keys;
    while stacks != {}
      invariant stacks <= r.stacks.Keys
      invariant forall s :: s in r.stacks && s !in stacks ==> StackOk(r, s)
      decreases stacks
    {
      var s :| s in stacks;
      stacks := stacks - {s};
      ok := ValidateStack(r, s);
      if !ok {
        return;
      }
    }
    return true;
  }

  // --- The guard before anything is loaded ----------------------------------------------------

  predicate Checked(r: Registry, recipe: string, jobStack: string, runnerStack: string)
  {
    && recipe in r.recipes && ValidStack(jobStack) && ValidStack(runnerStack)
    && forall i :: 0 <= i < |r.recipes[recipe].checkpoints| ==>
         var tier := ClassOf(r, r.recipes[recipe].checkpoints[i]);
         Allowed(jobStack, tier) && Allowed(runnerStack, tier)
  }

  method Check(r: Registry, recipe: string, jobStack: string, runnerStack: string) returns (rc: Option<Recipe>)
    ensures rc == if Checked(r, recipe, jobStack, runnerStack) then Some(r.recipes[recipe]) else None
  {
    if recipe !in r.recipes || !ValidStack(jobStack) || !ValidStack(runnerStack) {
      return None;
    }
    var found := r.recipes[recipe];
    for i := 0 to |found.checkpoints|
      invariant forall k :: 0 <= k < i ==>
                  Allowed(jobStack, ClassOf(r, found.checkpoints[k])) && Allowed(runnerStack, ClassOf(r, found.checkpoints[k]))
    {
      var tier := ClassOf(r, found.checkpoints[i]);
      if !Allowed(jobStack, tier) || !Allowed(runnerStack, tier) {
        return None;
      }
    }
    return Some(found);
  }

  /** The most restrictive class among a recipe's checkpoints. */
  method Class(r: Registry, rc: Recipe) returns (tier: string)
    ensures tier == if AllPublic(r, rc) then PUBLIC else INTERNAL
  {
    for i := 0 to |rc.checkpoints|
      invariant forall k :: 0 <= k < i ==> ClassOf(r, rc.checkpoints[k]) == PUBLIC
    {
      if rc.checkpoints[i] !in r.checkpoints || r.checkpoints[rc.checkpoints[i]].tier != PUBLIC {
        return INTERNAL;
      }
    }
    return PUBLIC;
  }

  // --- The runner's inventory --------------------------------------------------------------------

  datatype File = File(size: int, sha256: string)

  /** A checkpoint file the scan looks at and finds. */
  predicate Present(files: map<string, File>, c: Checkpoint) { c.package == "" && c.path in files }

  predicate FileOk(files: map<string, File>, stack: string, c: Checkpoint)
  {
    Present(files, c) ==> Allowed(stack, c.tier) && files[c.path] == File(c.size, c.sha256)
  }

  predicate VerifiedId(r: Registry, files: map<string, File>, id: string)
  {
    exists i :: 0 <= i < |r.order| && r.order[i].id == id && Present(files, r.order[i])
  }

  predicate Runnable(r: Registry, files: map<string, File>, rc: Recipe)
  {
    forall i :: 0 <= i < |rc.checkpoints| ==> VerifiedId(r, files, rc.checkpoints[i])
  }

  /** Some recipe of that id has all its files. */
  predicate Listed(r: Registry, files: map<string, File>, recipe: string)
  {
    exists id :: id in r.recipes && r.recipes[id].id == recipe && Runnable(r, files, r.recipes[id])
  }

  /** The image may run: its files are the manifest's, and none is above its stack. */
  predicate ImageOk(r: Registry, files: map<string, File>, stack: string)
  {
    ValidStack(stack) && forall i :: 0 <= i < |r.order| ==> FileOk(files, stack, r.order[i])
  }

  method VerifyFiles(r: Registry, files: map<string, File>, stack: string) returns (verified: Option<set<string>>)
    ensures verified.None? <==> exists i :: 0 <= i < |r.order| && !FileOk(files, stack, r.order[i])
    ensures verified.Some? ==> forall id :: id in verified.value <==> VerifiedId(r, files, id)
  {
    var ids: set<string> := {};
    for i := 0 to |r.order|
      invariant forall k :: 0 <= k < i ==> FileOk(files, stack, r.order[k])
      invariant forall id :: id in ids <==> exists k :: 0 <= k < i && r.order[k].id == id && Present(files, r.order[k])
    {
      var c := r.order[i];
      if c.package != "" || c.path !in files {
        continue;
      }
      if !Allowed(stack, c.tier) || files[c.path].size != c.size || files[c.path].sha256 != c.sha256 {
        return None;
      }
      ids := ids + {c.id};
    }
    return Some(ids);
  }

  /** None when the image must not run, else the recipes the runner may offer. */
  method Scan(r: Registry, files: map<string, File>, stack: string) returns (recipes: Option<set<string>>)
    ensures recipes.Some? <==> ImageOk(r, files, stack)
    ensures recipes.Some? ==> forall x :: x in recipes.value <==> Listed(r, files, x)
  {
    if !ValidStack(stack) {
      return None;
    }
    var verified := VerifyFiles(r, files, stack);
    if verified.None? {
      return None;
    }
    var found: set<string> := {};
    var rest := r.recipes.Keys;
    while rest != {}
      invariant rest <= r.recipes.Keys
      invariant forall id :: id in r.recipes && id !in rest && Runnable(r, files, r.recipes[id]) ==> r.recipes[id].id in found
      invariant forall x :: x in found ==> Listed(r, files, x)
      decreases rest
    {
      var id :| id in rest;
      var ok := AllIn(r.recipes[id].checkpoints, verified.value);
      if ok {
        found := found + {r.recipes[id].id};
      }
      rest := rest - {id};
    }
    return Some(found);
  }

  method AllIn(ids: seq<string>, verified: set<string>) returns (ok: bool)
    ensures ok <==> forall i :: 0 <= i < |ids| ==> ids[i] in verified
  {
    for i := 0 to |ids|
      invariant forall k :: 0 <= k < i ==> ids[k] in verified
    {
      if ids[i] !in verified {
        return false;
      }
    }
    return true;
  }

  // --- What a new job asks for -----------------------------------------------------------------------

  /** A signed-in account: its stack, and whether it may transcribe. */
  datatype Account = Account(stack: string, transcribe: bool)

  datatype Request = Request(account: Option<Account>, quality: string, transcribe: bool)

  datatype Choice = Choice(stack: string, quality: string, model: string, transcribe: bool)

  datatype Refusal = InvalidQuality | TranscribeNotAllowed | QualityNotAvailable | TranscribeNeedsSixStems

  predicate ValidQuality(q: string) { q == "fast" || q == "high" || q == "high6" || q == "hifi" }

  function RecipeFor(r: Registry, stack: string, quality: string): Option<string>
  {
    if stack in r.stacks && quality in r.stacks[stack] then Some(r.stacks[stack][quality]) else None
  }

  /** The part of create() between reading the form and inserting the row. */
  method Choose(r: Registry, q: Request) returns (choice: Option<Choice>, refusal: Option<Refusal>)
    ensures choice.Some? <==> refusal.None?
    ensures choice.Some? <==>
              var stack := if q.account.Some? then q.account.value.stack else PUBLIC;
              var quality := if q.quality == "" then "high" else q.quality;
              var recipe := RecipeFor(r, stack, quality);
              && ValidQuality(quality) && recipe.Some? && recipe.value in r.recipes
              && (q.transcribe ==> q.account.Some? && q.account.value.transcribe && stack == INTERNAL
                                   && r.recipes[recipe.value].stemCount == 6)
    ensures choice.Some? ==> Chosen(r, choice.value)
    ensures choice.Some? ==> choice.value.stack == if q.account.Some? then q.account.value.stack else PUBLIC
    ensures choice.Some? ==> choice.value.quality == (if q.quality == "" then "high" else q.quality) && choice.value.transcribe == q.transcribe
    ensures refusal == Some(TranscribeNotAllowed) ==>
              q.transcribe && !(q.account.Some? && q.account.value.transcribe && q.account.value.stack == INTERNAL)
  {
    var stack := PUBLIC;
    if q.account.Some? {
      stack := q.account.value.stack;
    }
    var quality := q.quality;
    if quality == "" {
      quality := "high";
    }
    if !ValidQuality(quality) {
      return None, Some(InvalidQuality);
    }
    if q.transcribe && (q.account.None? || !q.account.value.transcribe || stack != INTERNAL) {
      return None, Some(TranscribeNotAllowed);
    }
    var recipe := RecipeFor(r, stack, quality);
    if recipe.None? || recipe.value !in r.recipes {
      return None, Some(QualityNotAvailable);
    }
    if q.transcribe && r.recipes[recipe.value].stemCount != 6 {
      return None, Some(TranscribeNeedsSixStems);
    }
    return Some(Choice(stack, quality, recipe.value, q.transcribe)), None;
  }

  /** What create writes: the recipe its stack has for its quality, transcription only on the
      internal stack and with six stems. */
  predicate Chosen(r: Registry, c: Choice)
  {
    && ValidQuality(c.quality) && RecipeFor(r, c.stack, c.quality) == Some(c.model) && c.model in r.recipes
    && (c.transcribe ==> c.stack == INTERNAL && r.recipes[c.model].stemCount == 6)
  }

  // --- The row, the lease and the runner ----------------------------------------------------------------

  /** The recipe of a row as the server's Go code finds it; "" is no recipe at all. */
  function RecipeId(r: Registry, j: Job): string
  {
    var legacy := LegacyModel(j.quality);
    if j.model.Some? && j.model.value in r.recipes then r.recipes[j.model.value].id
    else if legacy in r.recipes then r.recipes[legacy].id else ""
  }

  function LegacyModel(quality: string): string
  {
    if quality == "high" then "htdemucs_ft" else if quality == "high6" then "htdemucs_6s" else "htdemucs"
  }

  const LEGACY_RECIPES := ["htdemucs", "htdemucs_ft", "htdemucs_6s"]

  /** The registry came from a manifest, as load makes it. */
  ghost predicate FromManifest(r: Registry)
  {
    exists recipes: seq<Recipe> :: r == Loaded(r.order, recipes, r.stacks)
  }

  /** The three presets of old runners are there. */
  predicate HasPresets(r: Registry)
  {
    forall i :: 0 <= i < |LEGACY_RECIPES| ==>
      LEGACY_RECIPES[i] in r.recipes && r.recipes[LEGACY_RECIPES[i]].engine == DEMUCS
  }

  /** Recipes are found under their own id. */
  lemma ManifestKeysRecipes(r: Registry)
    requires FromManifest(r)
    ensures r.checkpoints == CheckpointsById(r.order)
    ensures forall id :: id in r.recipes ==> r.recipes[id].id == id
  {
    var recipes: seq<Recipe> :| r == Loaded(r.order, recipes, r.stacks);
    LoadedRecipesAreKeyed(recipes);
  }

  datatype Offer = Offer(model: string, stack: string, transcribe: bool)

  function LeaseFor(r: Registry, j: Job): Offer { Offer(RecipeId(r, j), j.stack, j.transcribe) }

  /** A runner: without a stack it predates the registry and verified nothing. */
  datatype Runner = Runner(stack: string, recipes: Option<seq<string>>, transcribe: bool)

  function RunnerStack(a: Runner): string { if a.stack == "" then INTERNAL else a.stack }

  predicate Accepts(r: Registry, a: Runner, lease: Offer)
  {
    var jobStack := if lease.stack == "" then INTERNAL else lease.stack;
    && Checked(r, lease.model, jobStack, RunnerStack(a))
    && (a.recipes.Some? ==> r.recipes[lease.model].id in a.recipes.value)
    && (a.recipes.None? ==> r.recipes[lease.model].engine == DEMUCS)
    && (lease.transcribe ==> jobStack == INTERNAL)
  }

  method CheckLease(r: Registry, a: Runner, lease: Offer) returns (rc: Option<Recipe>)
    ensures rc == if Accepts(r, a, lease) then Some(r.recipes[lease.model]) else None
  {
    var jobStack := lease.stack;
    if jobStack == "" {
      jobStack := INTERNAL;
    }
    rc := Check(r, lease.model, jobStack, RunnerStack(a));
    if rc.None? {
      return;
    }
    if a.recipes.Some? && rc.value.id !in a.recipes.value {
      return None;
    }
    if a.recipes.None? && rc.value.engine != DEMUCS {
      return None;
    }
    if lease.transcribe && jobStack != INTERNAL {
      return None;
    }
  }

  // --- Nothing internal for a public job ------------------------------------------------------------------

  /** A job on the public stack is run by no runner with a checkpoint that is not public. */
  lemma PublicJobsLoadPublicWeights(r: Registry, a: Runner, j: Job)
    requires j.stack == PUBLIC && Accepts(r, a, LeaseFor(r, j))
    ensures AllPublic(r, r.recipes[RecipeId(r, j)])
  {
  }

  /** Checkpoint ids name one checkpoint each. */
  ghost predicate UniqueIds(r: Registry)
  {
    forall i :: 0 <= i < |r.order| ==> r.order[i].id in r.checkpoints && r.checkpoints[r.order[i].id] == r.order[i]
  }

  /** A public runner offers only recipes whose checkpoints are all public. */
  lemma PublicInventoryIsPublic(r: Registry, files: map<string, File>, recipe: string)
    requires UniqueIds(r) && ImageOk(r, files, PUBLIC) && Listed(r, files, recipe)
    ensures exists id :: id in r.recipes && r.recipes[id].id == recipe && AllPublic(r, r.recipes[id])
  {
    var id :| id in r.recipes && r.recipes[id].id == recipe && Runnable(r, files, r.recipes[id]);
    var rc := r.recipes[id];
    forall i | 0 <= i < |rc.checkpoints|
      ensures ClassOf(r, rc.checkpoints[i]) == PUBLIC
    {
      assert VerifiedId(r, files, rc.checkpoints[i]);
      var k :| 0 <= k < |r.order| && r.order[k].id == rc.checkpoints[i] && Present(files, r.order[k]);
      assert FileOk(files, PUBLIC, r.order[k]);
    }
  }

  /** Loading a manifest without repeated ids gives such a registry. */
  lemma {:induction false} LoadedIdsAreUnique(checkpoints: seq<Checkpoint>, recipes: seq<Recipe>, stacks: Stacks)
    requires forall i, j :: 0 <= i < j < |checkpoints| ==> checkpoints[i].id != checkpoints[j].id
    ensures UniqueIds(Loaded(checkpoints, recipes, stacks))
  {
    if checkpoints != [] {
      var n := |checkpoints| - 1;
      LoadedIdsAreUnique(checkpoints[..n], recipes, stacks);
      var before := Loaded(checkpoints[..n], recipes, stacks);
      forall i | 0 <= i < |checkpoints|
        ensures checkpoints[i].id in CheckpointsById(checkpoints) && CheckpointsById(checkpoints)[checkpoints[i].id] == checkpoints[i]
      {
        if i < n {
          assert before.order[i] == checkpoints[i];
        }
      }
    }
  }

  lemma {:induction false} LoadedRecipesAreKeyed(recipes: seq<Recipe>)
    ensures forall id :: id in RecipesById(recipes) ==> RecipesById(recipes)[id].id == id
  {
    if recipes != [] {
      LoadedRecipesAreKeyed(recipes[..|recipes| - 1]);
    }
  }

  // --- What can fool the scan ---------------------------------------------------------------------------

  /** A file that a public image may hold: it is public, and so is every other checkpoint that claims
      its path, with the same contents. */
  predicate Shippable(r: Registry, k: nat)
    requires k < |r.order|
  {
    && r.order[k].package == "" && r.order[k].tier == PUBLIC
    && forall i :: 0 <= i < |r.order| && r.order[i].package == "" && r.order[i].path == r.order[k].path ==>
         r.order[i].tier == PUBLIC && r.order[i].size == r.order[k].size && r.order[i].sha256 == r.order[k].sha256
  }

  predicate ShippableId(r: Registry, id: string)
  {
    exists k :: 0 <= k < |r.order| && r.order[k].id == id && Shippable(r, k)
  }

  /** Each id of the recipe has a shippable entry, but the entry that counts, the last of its id, is
      not public for one of them. */
  predicate Fooled(r: Registry, rc: Recipe)
  {
    (forall i :: 0 <= i < |rc.checkpoints| ==> ShippableId(r, rc.checkpoints[i])) && !AllPublic(r, rc)
  }

  /** Whatever files a public image holds, its inventory is all public. */
  ghost predicate NeverFooled(r: Registry)
  {
    forall files, recipe :: ImageOk(r, files, PUBLIC) && Listed(r, files, recipe) ==>
      recipe in r.recipes && AllPublic(r, r.recipes[recipe])
  }

  /** The inventory of every public image is all public exactly when the manifest fools no recipe. */
  lemma InventoryIsPublicExactlyWhen(r: Registry)
    requires FromManifest(r)
    ensures NeverFooled(r) <==> forall id :: id in r.recipes ==> !Fooled(r, r.recipes[id])
  {
    ManifestKeysRecipes(r);
    forall files, recipe | ImageOk(r, files, PUBLIC) && Listed(r, files, recipe)
      ensures recipe in r.recipes && (AllPublic(r, r.recipes[recipe]) || Fooled(r, r.recipes[recipe]))
    {
      ListedIsShippable(r, files, recipe);
    }
    if id :| id in r.recipes && Fooled(r, r.recipes[id]) {
      FoolingImage(r, id);
      assert Listed(r, FilesOf(r), id);
    }
  }

  lemma ListedIsShippable(r: Registry, files: map<string, File>, recipe: string)
    requires ImageOk(r, files, PUBLIC) && Listed(r, files, recipe)
    requires forall id :: id in r.recipes ==> r.recipes[id].id == id
    ensures recipe in r.recipes && forall i :: 0 <= i < |r.recipes[recipe].checkpoints| ==> ShippableId(r, r.recipes[recipe].checkpoints[i])
  {
    var rc := r.recipes[recipe];
    forall i | 0 <= i < |rc.checkpoints|
      ensures ShippableId(r, rc.checkpoints[i])
    {
      assert VerifiedId(r, files, rc.checkpoints[i]);
      var k :| 0 <= k < |r.order| && r.order[k].id == rc.checkpoints[i] && Present(files, r.order[k]);
      assert FileOk(files, PUBLIC, r.order[k]);
      assert forall j :: 0 <= j < |r.order| ==> FileOk(files, PUBLIC, r.order[j]);
      assert Shippable(r, k);
    }
  }

  /** All files a public image may hold. */
  ghost function FilesOf(r: Registry): map<string, File>
  {
    map k | 0 <= k < |r.order| && Shippable(r, k) :: r.order[k].path := FileAt(r, r.order[k].path)
  }

  ghost function FileAt(r: Registry, path: string): File
  {
    if k :| 0 <= k < |r.order| && Shippable(r, k) && r.order[k].path == path
    then File(r.order[k].size, r.order[k].sha256) else File(0, "")
  }

  lemma FoolingImage(r: Registry, id: string)
    requires id in r.recipes && Fooled(r, r.recipes[id]) && r.recipes[id].id == id
    ensures ImageOk(r, FilesOf(r), PUBLIC) && Listed(r, FilesOf(r), id)
  {
    var files, rc := FilesOf(r), r.recipes[id];
    forall i | 0 <= i < |r.order|
      ensures FileOk(files, PUBLIC, r.order[i])
    {
      if Present(files, r.order[i]) {
        var k :| 0 <= k < |r.order| && Shippable(r, k) && r.order[k].path == r.order[i].path;
        assert Shippable(r, i);
      }
    }
    forall i | 0 <= i < |rc.checkpoints|
      ensures VerifiedId(r, files, rc.checkpoints[i])
    {
      assert ShippableId(r, rc.checkpoints[i]);
      var k :| 0 <= k < |r.order| && r.order[k].id == rc.checkpoints[i] && Shippable(r, k);
      assert Present(files, r.order[k]);
    }
    assert Runnable(r, files, rc);
  }

  /** Unique ids fool nobody. */
  lemma UniqueIdsFoolNobody(r: Registry)
    requires FromManifest(r) && UniqueIds(r)
    ensures NeverFooled(r)
  {
    ManifestKeysRecipes(r);
    forall files, recipe | ImageOk(r, files, PUBLIC) && Listed(r, files, recipe)
      ensures recipe in r.recipes && AllPublic(r, r.recipes[recipe])
    {
      PublicInventoryIsPublic(r, files, recipe);
    }
  }

  const HASH := "0123456789abcdef0123456789abcdef0123456789abcdef0123456789abcdef"
  const OPEN := Checkpoint("w", PUBLIC, "a", "", 1, HASH, "u")
  const SECRET := Checkpoint("w", INTERNAL, "b", "", 1, HASH, "u")
  const TWIN := Recipe("x", MSST, 4, ["w"])

  /** A manifest that validate accepts and that does fool the scan: the public twin's file is there,
      the internal twin is what the recipe would load. */
  lemma RepeatedIdsFoolTheScan()
    ensures var r := Loaded([OPEN, SECRET], [TWIN], map[]);
            var files := map["a" := File(1, HASH)];
            && Sound(r) && FromManifest(r) && Fooled(r, TWIN)
            && ImageOk(r, files, PUBLIC) && Listed(r, files, "x") && !AllPublic(r, r.recipes["x"])
  {
    assert [OPEN, SECRET][..1] == [OPEN] && [OPEN][..0] == [] && [TWIN][..0] == [];
    assert CheckpointsById([OPEN]) == map["w" := OPEN];
    assert CheckpointsById([OPEN, SECRET]) == map["w" := SECRET];
    assert RecipesById([TWIN]) == map["x" := TWIN];
    var r := Loaded([OPEN, SECRET], [TWIN], map[]);
    var files := map["a" := File(1, HASH)];
    assert r.order[0] == OPEN && Present(files, r.order[0]);
    assert VerifiedId(r, files, "w");
    assert ClassOf(r, "w") == INTERNAL;
    assert r.recipes["x"] == TWIN && TWIN.checkpoints[0] == "w";
    assert |HASH| == 64;
    assert Shippable(r, 0);
  }

  // --- Every granted lease is accepted ---------------------------------------------------------------------

  /** The claim query and the server agree on a row's recipe exactly when the registry knows it. */
  lemma RecipesAgree(r: Registry, j: Job)
    requires FromManifest(r) && HasPresets(r)
    ensures L.JobModelSql(j) == RecipeId(r, j) <==> j.model.None? || j.model.value in r.recipes
  {
    ManifestKeysRecipes(r);
    assert LEGACY_RECIPES[0] == "htdemucs" && LEGACY_RECIPES[1] == "htdemucs_ft" && LEGACY_RECIPES[2] == "htdemucs_6s";
  }

  /** A runner as New builds it: old, or with the inventory of a scan of its own stack. */
  ghost predicate Built(r: Registry, a: Runner)
  {
    if a.stack == "" then a.recipes.None?
    else
      && ValidStack(a.stack) && a.recipes.Some? && a.recipes.value != []
      && exists files :: ImageOk(r, files, a.stack) && forall x :: x in a.recipes.value ==> Listed(r, files, x)
  }

  /** What the server makes of the headers of a runner. */
  ghost predicate Announced(a: Runner, caps: L.Capabilities)
  {
    && caps.transcribe == a.transcribe
    && (if a.recipes.None? then caps.recipes == LEGACY_RECIPES && caps.stack == INTERNAL
        else caps.recipes == a.recipes.value && caps.stack == a.stack)
  }

  /** A row as create writes it. */
  ghost predicate CreatedRow(r: Registry, j: Job)
  {
    exists c: Choice :: Chosen(r, c) && ValidStack(c.stack) &&
      j.stack == c.stack && j.quality == c.quality && j.model == Some(c.model) && j.transcribe == c.transcribe
  }

  /** Creating a chosen job writes such a row, and no later move of the row touches what was chosen. */
  lemma ChosenRowsStay(r: Registry, c: Choice, db: Db, id: JobId, expiresAt: int, now: int,
                       status: Stages.Status, progress: int, message: Message)
    requires Chosen(r, c) && ValidStack(c.stack)
    ensures CreatedRow(r, Queue.NewJob(c.quality, c.stack, Some(c.model), c.transcribe, expiresAt, now))
    ensures id in db.jobs && CreatedRow(r, db.jobs[id]) ==>
              CreatedRow(r, Queue.AfterTransition(db, id, status, progress, message, now).jobs[id]) &&
              CreatedRow(r, Queue.AfterClaim(db, id, now).jobs[id])
  {
  }

  /** Checkpoint classes of a sound registry are one of the two. */
  lemma {:induction false} ClassesAreKnown(checkpoints: seq<Checkpoint>, id: string)
    requires forall i :: 0 <= i < |checkpoints| ==> Pinned(checkpoints[i])
    requires id in CheckpointsById(checkpoints)
    ensures CheckpointsById(checkpoints)[id].tier == PUBLIC || CheckpointsById(checkpoints)[id].tier == INTERNAL
  {
    var n := |checkpoints| - 1;
    if checkpoints[n].id != id {
      ClassesAreKnown(checkpoints[..n], id);
    }
  }

  /** Whatever lease the claim grants on a row that create wrote, the runner it goes to accepts. */
  lemma GrantedLeasesAreAccepted(r: Registry, db: Db, id: JobId, max: int, a: Runner, caps: L.Capabilities)
    requires Sound(r) && FromManifest(r) && HasPresets(r)
    requires Built(r, a) && Announced(a, caps) && L.Offered(db, id, max, caps) && CreatedRow(r, db.jobs[id])
    ensures Accepts(r, a, LeaseFor(r, db.jobs[id]))
  {
    ManifestKeysRecipes(r);
    var j := db.jobs[id];
    var c: Choice :| Chosen(r, c) && ValidStack(c.stack) &&
      j.stack == c.stack && j.quality == c.quality && j.model == Some(c.model) && j.transcribe == c.transcribe;
    var rc := r.recipes[c.model];
    assert StackOk(r, c.stack) && OfferOk(r, c.stack, c.model) && RecipeOk(r, rc);
    forall i | 0 <= i < |rc.checkpoints|
      ensures Allowed(c.stack, ClassOf(r, rc.checkpoints[i])) && Allowed(RunnerStack(a), ClassOf(r, rc.checkpoints[i]))
    {
      ClassesAreKnown(r.order, rc.checkpoints[i]);
      assert c.stack == PUBLIC ==> ClassOf(r, rc.checkpoints[i]) == PUBLIC;
    }
    assert a.recipes.None? ==> rc.engine == DEMUCS by {
      if a.recipes.None? {
        var k :| 0 <= k < |LEGACY_RECIPES| && LEGACY_RECIPES[k] == c.model;
      }
    }
  }
}
