/** The data model of the routing front end: verbs, route descriptors, the
    per-verb route trees and the filter entries. */
module Routes {
  import Strs

  datatype Option<T> = None | Some(value: T)

  /** The value of an operation, or the message it panics with. */
  datatype Result<T> = Ok(value: T) | Panic(msg: string)

  /** The supported HTTP verbs (the keys, equal to the values, of HTTPMETHOD). */
  const HttpMethods: set<string> :=
    {"GET", "POST", "PUT", "DELETE", "PATCH", "OPTIONS", "HEAD", "TRACE", "CONNECT"}

  /** Controller methods that automatic registration never exposes. */
  const ExceptMethods: seq<string> :=
    ["Init", "Prepare", "Finish", "Render", "RenderString",
     "RenderBytes", "Redirect", "Abort", "StopRun", "UrlFor", "ServeJson", "ServeJsonp",
     "ServeXml", "Input", "ParseForm", "GetString", "GetStrings", "GetInt", "GetBool",
     "GetFloat", "GetFile", "SaveToFile", "StartSession", "SetSession", "GetSession",
     "DelSession", "SessionRegenerateID", "DestroySession", "IsAjax", "GetSecureCookie",
     "SetSecureCookie", "XsrfToken", "CheckXsrfCookie", "XsrfFormHtml",
     "GetControllerAndAction"]

  /** Stands for a wildcard segment while a URL is rebuilt from a tree. */
  const Placeholder: string := "{{placeholder}}"

  /** Filter execution points. */
  const BeforeStatic: int := 0
  const BeforeRouter: int := 1
  const BeforeExec: int := 2
  const AfterExec: int := 3
  const FinishRouter: int := 4

  /** The three kinds of route. */
  datatype RouterType = Beego | RESTFul | HandlerRoute

  /** A controller type as reflection would see it: its package path, its name
      and the names of its exported methods, in the order reflection lists them. */
  datatype ControllerType = ControllerType(pkgPath: string, name: string, methods: seq<string>)

  /** A route descriptor (`controllerInfo`).  Handlers and callbacks are opaque
      identities. */
  datatype ControllerInfo = ControllerInfo(
    pattern: string,
    controllerType: Option<ControllerType>,
    methods: map<string, string>,
    handler: nat,
    runFunction: nat,
    routerType: RouterType)

  /** One insertion into a route tree: the pattern as stored and the route. */
  datatype Entry = Entry(pattern: string, route: ControllerInfo)

  /** A route tree, seen through the insertions made into it.  Its compiled
      trie is not part of this model; matching is a function of this history. */
  datatype Tree = Tree(entries: seq<Entry>)

  function NewTree(): (t: Tree)
    ensures t.entries == []
  {
    Tree([])
  }

  /** `Tree.AddRouter`: records one more insertion. */
  function AddRouter(t: Tree, pattern: string, route: ControllerInfo): (t': Tree)
    ensures t'.entries == t.entries + [Entry(pattern, route)]
  {
    Tree(t.entries + [Entry(pattern, route)])
  }

  /** A filter entry (`FilterRouter`): the pattern as given, the pattern its
      tree was built from, the callback identity and the halt flag. */
  datatype FilterRouter = FilterRouter(
    pattern: string,
    treePattern: string,
    filterFunc: nat,
    returnOnOutput: bool)

  /** The process-wide settings the router consults. */
  datatype Config = Config(
    caseSensitive: bool,
    sessionOn: bool,
    copyRequestBody: bool,
    enableXSRF: bool,
    autoRender: bool,
    enableAdmin: bool,
    accessLogs: bool,
    devMode: bool,
    recoverPanic: bool,
    enableErrorsShow: bool,
    errorCodes: set<string>,
    staticDirs: set<string>,
    accessLogFilterSet: bool)

  /** The pattern a tree stores: lower-cased unless routing is case sensitive. */
  function StoredPattern(cfg: Config, pattern: string): string
  {
    if cfg.caseSensitive then pattern else Strs.ToLower(pattern)
  }
}
