/**
  The `create` command: scaffolds a new service from a name, a stage and a region.
  The workflow runs Prompt, Validate, Parse, Scaffold and Finish in that order over
  a shared record (options, the resolved service path), an abstract filesystem and
  the CLI's greeting counter and log.
 */
module CreatePlugin {
  import opened Wrappers
  import opened Paths
  import opened Names
  import opened Documents

  datatype Field = Name | Stage | Region

  /** The command-line options; a field the user did not pass is `None`. */
  datatype Options = Options(name: Option<string>, stage: Option<string>, region: Option<string>) {
    function Get(f: Field): Option<string> {
      match f
      case Name => name
      case Stage => stage
      case Region => region
    }
  }

  /** The validated name, stage and region of the service to create. */
  datatype Identity = Identity(name: string, stage: string, region: string)

  datatype Error =
    | MissingOption(field: Field)   // a required option is null or empty
    | InvalidName(name: string)     // the name does not follow the naming grammar
    | TemplateLoad(path: Path)      // a template is missing or not a non-empty object

  /** A file of the abstract filesystem: a source text, or a structured YAML/JSON document. */
  datatype File = Script(text: string) | Document(doc: Doc)

  const HandlerFile: string := "handler.js"
  const ManifestFile: string := "serverless.yaml"
  const PackageFile: string := "package.json"
  const EnvFile: string := "serverless.env.yaml"
  const TemplatesDir: string := "templates"

  /** The fixed handler stub; it is written as is, never templated. */
  const HandlerStub: string := "'use strict';\n\nmodule.exports.hello = (event, context, cb) => cb(null, { event });\n"

  /** The five completion lines Finish writes to the log. */
  const FinishMessages: seq<string> := [
    "Successfully created the new service",
    "The service files are in the service directory",
    "Edit serverless.yaml to describe the service",
    "Edit handler.js to write the function code",
    "Deploy the service to the chosen stage and region"
  ]

  /** An option counts as given when it is neither null nor empty. */
  predicate Present(v: Option<string>) {
    v.Some? && v.value != ""
  }

  /**
    The checks of validate: name, stage and region must each be given, and the name
    must follow the naming grammar. The first failing check decides the error.
   */
  function CheckOptions(o: Options): (r: Result<Identity, Error>)
    ensures r.Ok? <==> Present(o.name) && Present(o.stage) && Present(o.region) && ValidName(o.name.value)
    ensures r.Ok? ==> r.value == Identity(o.name.value, o.stage.value, o.region.value)
    ensures r.Err? && r.error.MissingOption? ==> !Present(o.Get(r.error.field))
    ensures r.Err? && r.error.InvalidName? ==> Present(o.name) && r.error.name == o.name.value && !ValidName(o.name.value)
    ensures r.Err? ==> r.error.MissingOption? || r.error.InvalidName?
  {
    if !Present(o.name) then Err(MissingOption(Name))
    else if !Present(o.stage) then Err(MissingOption(Stage))
    else if !Present(o.region) then Err(MissingOption(Region))
    else if !MatchesName(o.name.value) then Err(InvalidName(o.name.value))
    else Ok(Identity(o.name.value, o.stage.value, o.region.value))
  }

  /** Each of the three options is required on its own: whatever the other two hold, leaving it out fails. */
  lemma MissingOptionRejected(o: Options, f: Field)
    requires !Present(o.Get(f))
    ensures CheckOptions(o).Err? && CheckOptions(o).error.MissingOption?
  {
  }

  /** With all options given, a name with an underscore anywhere is rejected as an invalid name. */
  lemma UnderscoreNameRejected(o: Options, k: nat)
    requires Present(o.name) && Present(o.stage) && Present(o.region)
    requires k < |o.name.value| && o.name.value[k] == '_'
    ensures CheckOptions(o) == Err(InvalidName(o.name.value))
  {
  }

  /** The validate test that resolves: a hyphenated name with stage `dev` and region `aws_useast1`. */
  lemma ValidTestOptionsAccepted()
    ensures CheckOptions(Options(Some("valid-service-name"), Some("dev"), Some("aws_useast1")))
         == Ok(Identity("valid-service-name", "dev", "aws_useast1"))
  {
    var good := "valid-service-name";
    forall i | 1 <= i < |good|
      ensures IsLetter(good[i]) || good[i] == '-'
    {
    }
    HyphensAccepted(good);
  }

  /** The validate tests that throw: an underscore in the name, or one of the three options null. */
  lemma InvalidTestOptionsRejected()
    ensures CheckOptions(Options(Some("invalid_service_name"), Some("dev"), Some("aws_useast1")))
         == Err(InvalidName("invalid_service_name"))
    ensures CheckOptions(Options(None, Some("dev"), Some("aws_useast1"))) == Err(MissingOption(Name))
    ensures CheckOptions(Options(Some("valid-service-name"), None, Some("aws_useast1"))) == Err(MissingOption(Stage))
    ensures CheckOptions(Options(Some("valid-service-name"), Some("dev"), None)) == Err(MissingOption(Region))
  {
    UnderscoreRejected("invalid_service_name", 7);
  }

  /** Where Parse finds a template: `<installDir>/templates/<file>`. */
  function TemplatePath(installDir: Path, file: string): (p: Path)
    ensures |p| == |installDir| + |TemplatesDir| + 2 + |file|
    ensures p[..|installDir|] == installDir
    ensures p[|installDir|..|p| - |file|] == [Separator] + TemplatesDir + [Separator]
    ensures p[|p| - |file|..] == file
  {
    Join(Join(installDir, TemplatesDir), file)
  }

  /** A template loads when its file exists and holds an object document with at least one key. */
  predicate Loadable(fs: map<Path, File>, p: Path) {
    p in fs && fs[p].Document? && fs[p].doc.Obj? && |fs[p].doc.fields| > 0
  }

  /** Reads one template: its fields, or a load error naming its path. */
  function LoadTemplate(fs: map<Path, File>, p: Path): (r: Result<Fields, Error>)
    ensures r.Ok? <==> Loadable(fs, p)
    ensures r.Ok? ==> fs[p] == Document(Obj(r.value)) && |r.value| > 0
    ensures r.Err? ==> r.error == TemplateLoad(p)
  {
    if p in fs && fs[p].Document? && fs[p].doc.Obj? && |fs[p].doc.fields| > 0 then Ok(fs[p].doc.fields)
    else Err(TemplateLoad(p))
  }

  /**
    The four files scaffold writes under the service path `dir`: the handler stub, the
    manifest with `service` set to the name, the package descriptor with `name` set to
    the name, and the environment document for the stage and region.
   */
  function ScaffoldArtifacts(dir: Path, id: Identity, manifest: Fields, pkg: Fields): map<Path, File> {
    map[]
      [Join(dir, HandlerFile) := Script(HandlerStub)]
      [Join(dir, ManifestFile) := Document(Obj(SetField(manifest, "service", id.name)))]
      [Join(dir, PackageFile) := Document(Obj(SetField(pkg, "name", id.name)))]
      [Join(dir, EnvFile) := Document(EnvDocument(id.stage, id.region))]
  }

  /** Merging in a map and then updating one key is merging in the updated map. */
  lemma MergeThenUpdate<K, V>(m: map<K, V>, a: map<K, V>, k: K, v: V)
    ensures m + a[k := v] == (m + a)[k := v]
  {
  }

  /** Scaffold writes exactly four files, each directly under the service directory. */
  lemma ScaffoldWritesFourFiles(dir: Path, id: Identity, manifest: Fields, pkg: Fields)
    ensures var a := ScaffoldArtifacts(dir, id, manifest, pkg);
      && a.Keys == {Join(dir, HandlerFile), Join(dir, ManifestFile), Join(dir, PackageFile), Join(dir, EnvFile)}
      && |a| == 4
  {
  }

  /** `handler.js` exists under the service directory and holds the fixed stub. */
  lemma ScaffoldWritesHandler(dir: Path, id: Identity, manifest: Fields, pkg: Fields)
    ensures var a := ScaffoldArtifacts(dir, id, manifest, pkg);
      Join(dir, HandlerFile) in a && a[Join(dir, HandlerFile)] == Script(HandlerStub)
  {
  }

  /** `serverless.yaml` has `service` equal to the name; every other field is the template's. */
  lemma ScaffoldRendersManifest(dir: Path, id: Identity, manifest: Fields, pkg: Fields)
    ensures var a := ScaffoldArtifacts(dir, id, manifest, pkg);
      && Join(dir, ManifestFile) in a && a[Join(dir, ManifestFile)].Document?
      && Lookup(a[Join(dir, ManifestFile)].doc, ["service"]) == Some(Str(id.name))
      && forall k :: k != "service" ==> Lookup(a[Join(dir, ManifestFile)].doc, [k]) == Lookup(Obj(manifest), [k])
  {
  }

  /** `package.json` has `name` equal to the name; every other field is the template's. */
  lemma ScaffoldRendersPackage(dir: Path, id: Identity, manifest: Fields, pkg: Fields)
    ensures var a := ScaffoldArtifacts(dir, id, manifest, pkg);
      && Join(dir, PackageFile) in a && a[Join(dir, PackageFile)].Document?
      && Lookup(a[Join(dir, PackageFile)].doc, ["name"]) == Some(Str(id.name))
      && forall k :: k != "name" ==> Lookup(a[Join(dir, PackageFile)].doc, [k]) == Lookup(Obj(pkg), [k])
  {
  }

  /** `serverless.env.yaml` has `stages[stage].regions[region]` as an empty object. */
  lemma ScaffoldWritesEnv(dir: Path, id: Identity, manifest: Fields, pkg: Fields)
    ensures var a := ScaffoldArtifacts(dir, id, manifest, pkg);
      && Join(dir, EnvFile) in a && a[Join(dir, EnvFile)] == Document(EnvDocument(id.stage, id.region))
      && Lookup(a[Join(dir, EnvFile)].doc, ["stages", id.stage, "regions", id.region]) == Some(Obj(map[]))
  {
    EnvDocumentBranch(id.stage, id.region);
  }

  /**
    Scaffold renders its templates in place, so a caller that hands the same template objects
    to a second run passes templates whose `service` and `name` already hold the name. That
    second run writes the same four files as the first: the file map is unchanged by it.
   */
  lemma ScaffoldRepeatable(fs: map<Path, File>, dir: Path, id: Identity, manifest: Fields, pkg: Fields)
    ensures ScaffoldArtifacts(dir, id, SetField(manifest, "service", id.name), SetField(pkg, "name", id.name))
         == ScaffoldArtifacts(dir, id, manifest, pkg)
    ensures var first := fs + ScaffoldArtifacts(dir, id, manifest, pkg);
      first + ScaffoldArtifacts(dir, id, SetField(manifest, "service", id.name), SetField(pkg, "name", id.name)) == first
  {
    SetFieldIdempotent(manifest, "service", id.name);
    SetFieldIdempotent(pkg, "name", id.name);
  }

  /** Scaffolding changes no file outside the four artifacts. */
  lemma ScaffoldKeepsOtherFiles(fs: map<Path, File>, dir: Path, id: Identity, manifest: Fields, pkg: Fields, p: Path)
    requires p in fs
    requires p !in {Join(dir, HandlerFile), Join(dir, ManifestFile), Join(dir, PackageFile), Join(dir, EnvFile)}
    ensures p in fs + ScaffoldArtifacts(dir, id, manifest, pkg)
    ensures (fs + ScaffoldArtifacts(dir, id, manifest, pkg))[p] == fs[p]
  {
  }

  /**
    The scaffold test's inputs: name `new-service`, stage `dev`, region `aws_useast_1`,
    templates `{service: ''}` and `{name: ''}`. The environment document is keyed by the
    region exactly as given, so the key `aws_useast1` the test looks up is not there.
   */
  lemma ScaffoldTestCase(dir: Path)
    ensures var a := ScaffoldArtifacts(dir, Identity("new-service", "dev", "aws_useast_1"),
                                       map["service" := Str("")], map["name" := Str("")]);
      && a[Join(dir, ManifestFile)] == Document(Obj(map["service" := Str("new-service")]))
      && a[Join(dir, PackageFile)] == Document(Obj(map["name" := Str("new-service")]))
      && Lookup(a[Join(dir, EnvFile)].doc, ["stages", "dev", "regions", "aws_useast_1"]) == Some(Obj(map[]))
      && Lookup(a[Join(dir, EnvFile)].doc, ["stages", "dev", "regions", "aws_useast1"]) == None
  {
    EnvDocumentBranch("dev", "aws_useast_1");
    EnvDocumentSingleBranch("dev", "aws_useast_1");
    assert SetField(map["service" := Str("")], "service", "new-service") == map["service" := Str("new-service")];
    assert SetField(map["name" := Str("")], "name", "new-service") == map["name" := Str("new-service")];
  }

  /**
    One create command: its options, the session's interactivity, the shared service path,
    the filesystem, the greetings shown and the log lines written.
   */
  class Create {
    var options: Options
    var interactive: bool
    var servicePath: Option<Path>
    var fs: map<Path, File>
    var dirs: set<Path>
    var greetings: nat
    var log: seq<string>

    constructor (interactive: bool, fs: map<Path, File>, dirs: set<Path>)
      ensures this.options == Options(None, None, None) && this.servicePath == None
      ensures this.interactive == interactive && this.fs == fs && this.dirs == dirs
      ensures this.greetings == 0 && this.log == []
    {
      this.options := Options(None, None, None);
      this.interactive := interactive;
      this.servicePath := None;
      this.fs := fs;
      this.dirs := dirs;
      this.greetings := 0;
      this.log := [];
    }

    /** Shows the greeting once when the session is interactive, and nothing otherwise; never fails. */
    method Prompt()
      modifies this`greetings
      ensures greetings == old(greetings) + (if interactive then 1 else 0)
      ensures options == old(options)
    {
      if interactive {
        greetings := greetings + 1;
      }
    }

    /**
      Checks the options; on success stores `join(cwd, name)` as the service path. A failure
      is raised before anything changes: the service path, files and log stay as they were.
     */
    method Validate(cwd: Path) returns (r: Result<(), Error>)
      modifies this`servicePath
      ensures r.Ok? <==> CheckOptions(options).Ok?
      ensures r.Ok? ==> servicePath == Some(Join(cwd, options.name.value))
      ensures r.Err? ==> r.error == CheckOptions(options).error && servicePath == old(servicePath)
    {
      var checked := CheckOptions(options);
      if checked.Err? {
        return Err(checked.error);
      }
      servicePath := Some(Join(cwd, checked.value.name));
      r := Ok(());
    }

    /**
      Loads the manifest and package templates from `<installDir>/templates`. Each result
      is an object with at least one key; a missing or malformed template is an error.
     */
    method Parse(installDir: Path) returns (r: Result<(Fields, Fields), Error>)
      ensures var m, p := TemplatePath(installDir, ManifestFile), TemplatePath(installDir, PackageFile);
        && (r.Ok? <==> Loadable(fs, m) && Loadable(fs, p))
        && (r.Ok? ==> |r.value.0| > 0 && |r.value.1| > 0)
        && (r.Ok? ==> fs[m] == Document(Obj(r.value.0)) && fs[p] == Document(Obj(r.value.1)))
        && (r.Err? ==> r.error == TemplateLoad(if Loadable(fs, m) then p else m))
    {
      var manifest := LoadTemplate(fs, TemplatePath(installDir, ManifestFile));
      if manifest.Err? {
        return Err(manifest.error);
      }
      var pkg := LoadTemplate(fs, TemplatePath(installDir, PackageFile));
      if pkg.Err? {
        return Err(pkg.error);
      }
      r := Ok((manifest.value, pkg.value));
    }

    /**
      Creates the service directory and writes, one after another, the handler stub, the
      manifest, the package descriptor and the environment document into it. Existing
      files at those paths are overwritten; every other file is kept.
     */
    method Scaffold(manifest: Fields, pkg: Fields)
      requires servicePath.Some? && options.name.Some? && options.stage.Some? && options.region.Some?
      modifies this`fs, this`dirs
      ensures dirs == old(dirs) + {servicePath.value}
      ensures fs == old(fs) + ScaffoldArtifacts(servicePath.value,
        Identity(options.name.value, options.stage.value, options.region.value), manifest, pkg)
    {
      var dir := servicePath.value;
      var id := Identity(options.name.value, options.stage.value, options.region.value);
      var handler := Script(HandlerStub);
      var yaml := Document(Obj(SetField(manifest, "service", id.name)));
      var json := Document(Obj(SetField(pkg, "name", id.name)));
      var env := Document(EnvDocument(id.stage, id.region));
      ghost var was := fs;
      dirs := dirs + {dir};
      fs := fs[Join(dir, HandlerFile) := handler];
      fs := fs[Join(dir, ManifestFile) := yaml];
      fs := fs[Join(dir, PackageFile) := json];
      fs := fs[Join(dir, EnvFile) := env];
      assert ScaffoldArtifacts(dir, id, manifest, pkg)
          == map[][Join(dir, HandlerFile) := handler][Join(dir, ManifestFile) := yaml]
                  [Join(dir, PackageFile) := json][Join(dir, EnvFile) := env];
      assert was + map[] == was;
      MergeThenUpdate(was, map[], Join(dir, HandlerFile), handler);
      MergeThenUpdate(was, map[][Join(dir, HandlerFile) := handler], Join(dir, ManifestFile), yaml);
      MergeThenUpdate(was, map[][Join(dir, HandlerFile) := handler][Join(dir, ManifestFile) := yaml],
        Join(dir, PackageFile), json);
      MergeThenUpdate(was, map[][Join(dir, HandlerFile) := handler][Join(dir, ManifestFile) := yaml]
        [Join(dir, PackageFile) := json], Join(dir, EnvFile), env);
    }

    /** Writes exactly five lines to the log after the lines already there. */
    method Finish()
      modifies this`log
      ensures |log| == |old(log)| + 5 && log[..|old(log)|] == old(log)
      ensures log[|old(log)|..] == FinishMessages
    {
      log := log + FinishMessages;
    }

    /**
      The whole command: Prompt, Validate, Parse, Scaffold and Finish in order, halting
      at the first failure. Invalid options stop it before any directory or file exists.
     */
    method Run(cwd: Path, installDir: Path) returns (r: Result<(), Error>)
      modifies this`greetings, this`servicePath, this`fs, this`dirs, this`log
      ensures greetings == old(greetings) + (if interactive then 1 else 0)
      ensures CheckOptions(options).Err? ==>
        && r == Err(CheckOptions(options).error)
        && servicePath == old(servicePath) && fs == old(fs) && dirs == old(dirs) && log == old(log)
      ensures CheckOptions(options).Ok? ==> servicePath == Some(Join(cwd, options.name.value))
      ensures var m, p := TemplatePath(installDir, ManifestFile), TemplatePath(installDir, PackageFile);
        && (r.Ok? <==> CheckOptions(options).Ok? && Loadable(old(fs), m) && Loadable(old(fs), p))
        && (CheckOptions(options).Ok? && r.Err? ==>
              r.error.TemplateLoad? && fs == old(fs) && dirs == old(dirs) && log == old(log))
        && (r.Ok? ==>
              && dirs == old(dirs) + {servicePath.value}
              && fs == old(fs) + ScaffoldArtifacts(servicePath.value, CheckOptions(options).value,
                                                   old(fs)[m].doc.fields, old(fs)[p].doc.fields)
              && log == old(log) + FinishMessages)
    {
      Prompt();
      r := Validate(cwd);
      if r.Err? {
        return;
      }
      var templates := Parse(installDir);
      if templates.Err? {
        return Err(templates.error);
      }
      var (manifest, pkg) := templates.value;
      Scaffold(manifest, pkg);
      Finish();
      r := Ok(());
    }
  }
}
