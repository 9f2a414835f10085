/**
 * BaseController.go: the state a controller carries and the setters the
 * dispatcher and the service call on it. A concrete controller embeds
 * `BaseController`; its exported methods, found by name at dispatch time,
 * are given here as a fixed table from method name to signature.
 */
module Controllers {
  import opened Wrappers
  import opened GoText
  import opened GoHttp

  /** `os.PathSeparator` on Unix-like systems; Windows' '\\' is not modelled. */
  const PathSeparator: char := '/'

  /** The signature of an exported method: `func([]string)`, the only one
      the dispatcher can call, or anything else. */
  datatype Signature = ArgsHandler | OtherSignature

  /** One call of a controller method with its positional arguments. */
  datatype Call = Call(methodName: string, args: seq<string>)

  /** The exported methods every controller gets from `BaseController`;
      none of them has the signature `func([]string)`. */
  const BaseMethods: map<string, Signature> := map[
    "SetDirs" := OtherSignature, "SetRequest" := OtherSignature,
    "SetResponse" := OtherSignature, "GetTemplate" := OtherSignature]

  /** `TemplateDir` as `SetDirs` composes it from the service root. */
  function TemplateDirOf(root: string): string
  {
    root + [PathSeparator] + "tpl"
  }

  /** The file `GetTemplate` reads for template `tpl`. */
  function TemplatePath(templateDir: string, tpl: string): string
  {
    templateDir + [PathSeparator] + tpl
  }

  /** After `SetDirs`, a template is looked up one directory `tpl` below
      the service root: its path components are the root's, then "tpl",
      then the template name's. */
  lemma TemplatePathComponents(root: string, tpl: string)
    ensures Split(TemplatePath(TemplateDirOf(root), tpl), PathSeparator)
         == Split(root, PathSeparator) + ["tpl"] + Split(tpl, PathSeparator)
  {
    var dir := TemplateDirOf(root);
    SplitConcat(dir, tpl, PathSeparator);
    SplitConcat(root, "tpl", PathSeparator);
    SplitNoSep("tpl", PathSeparator);
  }

  /** A controller: `BaseController`'s four fields, the method table of the
      concrete type, and the record of the calls made on its methods. */
  class Controller {
    var microServiceRootDir: string
    var templateDir: string
    var request: Request?
    var response: ResponseWriter?
    const methods: map<string, Signature>
    var calls: seq<Call>

    /** A controller whose concrete type declares `own` methods; they
        shadow the promoted `BaseController` methods of the same name. */
    constructor (own: map<string, Signature>)
      ensures methods == BaseMethods + own
      ensures microServiceRootDir == "" && templateDir == ""
      ensures request == null && response == null && calls == []
    {
      methods := BaseMethods + own;
      microServiceRootDir := "";
      templateDir := "";
      request := null;
      response := null;
      calls := [];
    }

    /** Bind the request; nothing else changes. */
    method SetRequest(r: Request?)
      modifies this
      ensures request == r
      ensures response == old(response) && calls == old(calls)
      ensures microServiceRootDir == old(microServiceRootDir) && templateDir == old(templateDir)
    {
      request := r;
    }

    /** Bind the response writer; nothing else changes. */
    method SetResponse(w: ResponseWriter?)
      modifies this
      ensures response == w
      ensures request == old(request) && calls == old(calls)
      ensures microServiceRootDir == old(microServiceRootDir) && templateDir == old(templateDir)
    {
      response := w;
    }

    /** Record the executable's directory (given, since it comes from
        `os.Args[0]`) and the template directory below it. */
    method SetDirs(executableDir: string)
      modifies this
      ensures microServiceRootDir == executableDir
      ensures templateDir == TemplateDirOf(executableDir)
      ensures request == old(request) && response == old(response) && calls == old(calls)
    {
      microServiceRootDir := executableDir;
      templateDir := microServiceRootDir + [PathSeparator] + "tpl";
    }

    /** Read template `tpl` with `readFile` (`ioutil.ReadFile`): the
        contents and no error, or no contents and the read error. */
    method GetTemplate(tpl: string, readFile: string -> Result<seq<byte>, string>)
      returns (contents: Option<seq<byte>>, err: Option<string>)
      ensures readFile(TemplatePath(templateDir, tpl)).Ok? ==>
        contents == Some(readFile(TemplatePath(templateDir, tpl)).value) && err == None
      ensures readFile(TemplatePath(templateDir, tpl)).Err? ==>
        contents == None && err == Some(readFile(TemplatePath(templateDir, tpl)).error)
    {
      var read := readFile(templateDir + [PathSeparator] + tpl);
      if read.Err? {
        return None, Some(read.error);
      }
      return Some(read.value), None;
    }

    /** Run the exported method `name` with `args`. Its body is the
        concrete controller's code; the model records the call. */
    method Invoke(name: string, args: seq<string>)
      requires name in methods && methods[name] == ArgsHandler
      modifies this
      ensures calls == old(calls) + [Call(name, args)]
      ensures request == old(request) && response == old(response)
      ensures microServiceRootDir == old(microServiceRootDir) && templateDir == old(templateDir)
    {
      calls := calls + [Call(name, args)];
    }
  }
}
