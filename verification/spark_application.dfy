/**
  A Spark application submitted to Data Mechanics: the script packaged from
  the transformation's Blocks and Codes, the name it is stored under, the
  link to it, and the job request that points the cluster at that link.
 */
module SparkApplication {
  import opened Wrappers
  import opened Php
  import opened Transformation
  import opened ScriptPackaging
  import Http = DataMechanicsClient

  /** The message format of the logging middleware `SparkApplication::initClient` pushes. */
  const SANDBOXES_LOG_FORMAT := "[sandboxes-api] {method} {uri} : {code} {res_header_Content-Length}"

  /** The name the packaged script is stored under: the application name followed directly by "py". */
  function FileName(appName: string): (fileName: string)
    ensures |fileName| == |appName| + 2
    ensures fileName[..|appName|] == appName
    ensures fileName[|appName|..] == "py"
  {
    appName + "py"
  }

  /** The application name a stored script belongs to: the name without its "py" ending. */
  function AppNameOf(fileName: string): Option<string> {
    if |fileName| >= 2 && fileName[|fileName| - 2..] == "py" then Some(fileName[..|fileName| - 2]) else None
  }

  /** The file name determines the application name: different applications never share a script. */
  lemma FileNameRoundTrip(appName: string)
    ensures AppNameOf(FileName(appName)) == Some(appName)
  {
  }

  /** The link the cluster downloads the script from: the container's primary URI, the file name,
      "?" and the shared access signature. */
  function ScriptLink(primaryUri: string, fileName: string, sas: string): (link: string)
    ensures |link| == |primaryUri| + |fileName| + 1 + |sas|
    ensures link[..|primaryUri|] == primaryUri
    ensures link[|primaryUri|..|primaryUri| + |fileName|] == fileName
    ensures link[|primaryUri| + |fileName|] == '?'
    ensures link[|primaryUri| + |fileName| + 1..] == sas
  {
    primaryUri + fileName + "?" + sas
  }

  /** The position of the last `c` in `s`, if there is one. */
  function LastIndex(s: string, c: char): (r: Option<nat>)
    ensures r.Some? ==> r.value < |s| && s[r.value] == c && forall k :: r.value < k < |s| ==> s[k] != c
    ensures r.None? ==> forall k :: 0 <= k < |s| ==> s[k] != c
  {
    if s == [] then None
    else if s[|s| - 1] == c then Some(|s| - 1)
    else LastIndex(s[..|s| - 1], c)
  }

  /** A link split at its last "?": the address of the script and the query holding the signature. */
  function SplitLink(link: string): Option<(string, string)> {
    match LastIndex(link, '?')
    case None => None
    case Some(q) => Some((link[..q], link[q + 1..]))
  }

  /** A signature without "?" is recovered from the link, after the URI and the file name. */
  lemma LinkRoundTrip(primaryUri: string, fileName: string, sas: string)
    ensures '?' !in sas ==> SplitLink(ScriptLink(primaryUri, fileName, sas)) == Some((primaryUri + fileName, sas))
  {
    if '?' in sas {
      return;
    }
    var link := ScriptLink(primaryUri, fileName, sas);
    var q := |primaryUri| + |fileName|;
    forall k | q < k < |link|
      ensures link[k] != '?'
    {
      assert link[k] == link[q + 1..][k - q - 1];
    }
    assert LastIndex(link, '?') == Some(q);
    assert link[..q] == primaryUri + fileName;
  }

  /** What the job request submits. */
  datatype JobSubmission = JobSubmission(appName: string, jobName: string, configTemplateName: string, scriptLink: string)

  /** The job data `run` sends: four keys in this order, the script link under `configOverrides`. */
  function JobPayload(job: JobSubmission): (v: Value)
    ensures v.Assoc? && Keys(v.entries) == ["appName", "jobName", "configTemplateName", "configOverrides"]
    ensures Get(v, "appName") == Some(Str(job.appName))
    ensures Get(v, "jobName") == Some(Str(job.jobName))
    ensures Get(v, "configTemplateName") == Some(Str(job.configTemplateName))
    ensures Get(v, "configOverrides") == Some(Assoc([("mainApplicationFile", Str(job.scriptLink))]))
  {
    var entries := [
      ("appName", Str(job.appName)),
      ("jobName", Str(job.jobName)),
      ("configTemplateName", Str(job.configTemplateName)),
      ("configOverrides", Assoc([("mainApplicationFile", Str(job.scriptLink))]))];
    LookupAt(entries, 1);
    LookupAt(entries, 2);
    LookupAt(entries, 3);
    Assoc(entries)
  }

  /** How the receiving side reads a submission back from job data. */
  function ParseJobPayload(v: Value): Option<JobSubmission> {
    match (Get(v, "appName"), Get(v, "jobName"), Get(v, "configTemplateName"), Get(v, "configOverrides"))
    case (Some(Str(app)), Some(Str(job)), Some(Str(template)), Some(overrides)) =>
      (match Get(overrides, "mainApplicationFile")
       case Some(Str(link)) => Some(JobSubmission(app, job, template, link))
       case _ => None)
    case _ => None
  }

  /** The job data carries the whole submission. */
  lemma PayloadRoundTrip(job: JobSubmission)
    ensures ParseJobPayload(JobPayload(job)) == Some(job)
  {
  }

  /** The blob `packageScript` writes: its name and contents (the container is left out). */
  datatype BlobWrite = BlobWrite(name: string, contents: string)

  /** The settings `run` would need for its client; the source does not supply them. */
  datatype ClientSettings = ClientSettings(backoffMaxTries: int, userAgent: string, headers: seq<(string, string)>)

  class SparkApplication {
    const dataMechanicsUrl: string
    const dataMechanicsToken: string
    const configurationTemplate: string
    /** The typed properties `appName` and `jobName`: None until assigned. */
    var appName: Option<string>
    var jobName: Option<string>

    constructor(dataMechanicsUrl: string, dataMechanicsToken: string, configurationTemplate: string)
      ensures this.dataMechanicsUrl == dataMechanicsUrl
      ensures this.dataMechanicsToken == dataMechanicsToken
      ensures this.configurationTemplate == configurationTemplate
      ensures appName == None && jobName == None
    {
      this.dataMechanicsUrl := dataMechanicsUrl;
      this.dataMechanicsToken := dataMechanicsToken;
      this.configurationTemplate := configurationTemplate;
      appName := None;
      jobName := None;
    }

    /** `getAppName`: reading the property before it is assigned raises an error. */
    function AppName(): (r: Result<string, Failure>)
      reads this
      ensures r.Ok? <==> appName.Some?
      ensures r.Ok? ==> r.value == appName.value
      ensures r.Err? ==> r.error == UninitializedProperty("appName")
    {
      if appName.Some? then Ok(appName.value) else Err(UninitializedProperty("appName"))
    }

    /** `getJobName`: reading the property before it is assigned raises an error. */
    function JobName(): (r: Result<string, Failure>)
      reads this
      ensures r.Ok? <==> jobName.Some?
      ensures r.Ok? ==> r.value == jobName.value
      ensures r.Err? ==> r.error == UninitializedProperty("jobName")
    {
      if jobName.Some? then Ok(jobName.value) else Err(UninitializedProperty("jobName"))
    }

    /** `getFileName`: the script's name, from which the application name is recovered. */
    function GetFileName(): (r: Result<string, Failure>)
      reads this
      ensures r.Ok? <==> appName.Some?
      ensures r.Ok? ==> AppNameOf(r.value) == appName
      ensures r.Err? ==> r.error == UninitializedProperty("appName")
    {
      if appName.Some? then
        FileNameRoundTrip(appName.value);
        Ok(FileName(appName.value))
      else Err(UninitializedProperty("appName"))
    }

    method SetAppName(name: string) returns (self: SparkApplication)
      modifies this`appName
      ensures self == this
      ensures AppName() == Ok(name)
      ensures jobName == old(jobName)
    {
      appName := Some(name);
      self := this;
    }

    method SetJobName(name: string) returns (self: SparkApplication)
      modifies this`jobName
      ensures self == this
      ensures JobName() == Ok(name)
      ensures appName == old(appName)
    {
      jobName := Some(name);
      self := this;
    }

    /** `packageScript`: every Code's lines joined with "\n", Codes and Blocks appended in order,
        stored under the script's file name. */
    method PackageScript(blocks: seq<Block>) returns (r: Result<BlobWrite, Failure>)
      ensures appName.None? ==> r == Err(UninitializedProperty("appName"))
      ensures appName.Some? ==> r == Ok(BlobWrite(FileName(appName.value), Packaged(blocks)))
    {
      var script := "";
      for i := 0 to |blocks|
        invariant script == Packaged(blocks[..i])
      {
        var codes := blocks[i].codes;
        for j := 0 to |codes|
          invariant script == Packaged(blocks[..i]) + Concat(CodeTexts(codes[..j]))
        {
          CodeTextsStep(codes, j);
          script := script + Implode("\n", codes[j].scripts);
        }
        assert codes[..|codes|] == codes;
        PackagedStep(blocks, i);
      }
      assert blocks[..|blocks|] == blocks;
      var name := GetFileName();
      if name.Err? {
        return Err(name.error);
      }
      r := Ok(BlobWrite(name.value, script));
    }

    /** `generateLinkToScript`, given the container's primary URI and the signature it would generate. */
    function GenerateLinkToScript(primaryUri: string, sas: string): (r: Result<string, Failure>)
      reads this
      ensures r.Err? <==> appName.None?
      ensures r.Err? ==> r.error == UninitializedProperty("appName")
      ensures r.Ok? ==> r.value == ScriptLink(primaryUri, FileName(appName.value), sas)
      ensures r.Ok? && '?' !in sas ==> SplitLink(r.value) == Some((primaryUri + FileName(appName.value), sas))
    {
      match GetFileName()
      case Err(e) => Err(e)
      case Ok(fileName) =>
        LinkRoundTrip(primaryUri, fileName, sas);
        Ok(ScriptLink(primaryUri, fileName, sas))
    }

    /** `run`: the link is generated first, then the client is built, then the job data is read;
        the request goes out only when both names are set. `sent` is the request as it leaves the
        handler stack. */
    method Run(primaryUri: string, sas: string, settings: ClientSettings, delivery: Http.Delivery)
      returns (sent: Option<Http.Request>, r: Result<Value, Failure>)
      ensures appName.None? ==> sent == None && r == Err(UninitializedProperty("appName"))
      ensures appName.Some? && jobName.None? ==> sent == None && r == Err(UninitializedProperty("jobName"))
      ensures appName.Some? && jobName.Some? ==>
                && sent.Some?
                && sent.value.httpMethod == "POST" && sent.value.target == "apps"
                && sent.value.headers == Http.Mapped(map[], settings.userAgent, settings.headers)
                && sent.value.body == JobPayload(JobSubmission(appName.value, jobName.value, configurationTemplate,
                                                              ScriptLink(primaryUri, FileName(appName.value), sas)))
                && r == Http.SendRequest(delivery)
    {
      var link := GenerateLinkToScript(primaryUri, sas);
      if link.Err? {
        return None, Err(link.error);
      }
      var options := Http.ClientOptions(dataMechanicsUrl + "/api/", true, settings.backoffMaxTries,
                                        settings.userAgent, settings.headers);
      var client := Http.InitClient(options, SANDBOXES_LOG_FORMAT);
      var app := AppName();
      var job := JobName();
      if job.Err? {
        return None, Err(job.error);
      }
      var jobData := JobPayload(JobSubmission(app.value, job.value, configurationTemplate, link.value));
      var request := Http.Request("POST", "apps", map[], jobData);
      assert client.handlers == [Http.RetryMiddleware(settings.backoffMaxTries),
                                 Http.MapRequestMiddleware(settings.userAgent, settings.headers),
                                 Http.LogMiddleware(SANDBOXES_LOG_FORMAT)];
      Http.PrepareThroughStack(settings.backoffMaxTries, settings.userAgent, settings.headers, SANDBOXES_LOG_FORMAT, request);
      sent := Some(Http.Prepare(client.handlers, request));
      r := Http.SendRequest(delivery);
    }
  }

  const HELLO_LINE := "print('hello world') \n"
  const GOODBYE_LINE := "print('goodbye world') \n"

  /** The transformation of the end-to-end test: one Block holding one Code with two lines. */
  function HelloWorldBlocks(): seq<Block> {
    [Block("first block", [Code("first code", [HELLO_LINE, GOODBYE_LINE])])]
  }

  /** The test's two lines are packaged with exactly one "\n" added between them. */
  lemma HelloWorldPackage()
    ensures Packaged(HelloWorldBlocks()) == HELLO_LINE + "\n" + GOODBYE_LINE
  {
    var code := Code("first code", [HELLO_LINE, GOODBYE_LINE]);
    assert [HELLO_LINE, GOODBYE_LINE][..1] == [HELLO_LINE];
    assert Implode("\n", [HELLO_LINE]) == HELLO_LINE;
    assert CodeText(code) == HELLO_LINE + "\n" + GOODBYE_LINE;
    var texts := CodeTexts([code]);
    assert texts[..|texts| - 1] == [] && texts[|texts| - 1] == CodeText(code);
    assert BlockText(HelloWorldBlocks()[0]) == Concat(texts) == CodeText(code);
    assert BlockTexts(HelloWorldBlocks())[..0] == [];
  }

  /** The end-to-end test: name the application and the job after the run id, package the script
      and run the job. */
  method TransformationTestScenario(dataMechanicsUrl: string, dataMechanicsToken: string, configurationTemplate: string,
                                    runId: string, primaryUri: string, sas: string, settings: ClientSettings,
                                    delivery: Http.Delivery)
    returns (upload: Result<BlobWrite, Failure>, sent: Option<Http.Request>, r: Result<Value, Failure>)
    ensures upload == Ok(BlobWrite("helloworld-" + runId + "py", HELLO_LINE + "\n" + GOODBYE_LINE))
    ensures sent.Some? && sent.value.body == JobPayload(JobSubmission(
              "helloworld-" + runId, "transformation-test-" + runId, configurationTemplate,
              ScriptLink(primaryUri, "helloworld-" + runId + "py", sas)))
    ensures r == Http.SendRequest(delivery)
  {
    var app := new SparkApplication(dataMechanicsUrl, dataMechanicsToken, configurationTemplate);
    var _ := app.SetAppName("helloworld-" + runId);
    var _ := app.SetJobName("transformation-test-" + runId);
    HelloWorldPackage();
    upload := app.PackageScript(HelloWorldBlocks());
    sent, r := app.Run(primaryUri, sas, settings, delivery);
  }
}
