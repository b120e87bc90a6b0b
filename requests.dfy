/**
 * The convenience request methods (`authenticate`, `getAuthRequired`,
 * `getSceneList`, `getVersion`, `setCurrentScene`, `setSourceRender`): each
 * builds an object literal with a fixed `request-type` and hands it to `send`.
 */
module Requests {

  import opened Wrappers
  import opened Json

  datatype Request =
    | Authenticate(auth: Value)
    | GetAuthRequired
    | GetSceneList
    | GetVersion
    | SetCurrentScene(sceneName: Value)
    | SetSourceRender(scene: Value, source: Value, render: Value)

  /** The object literal each convenience method passes to `send`, keys in written order. */
  function Body(req: Request): (fields: seq<Field>)
    ensures |fields| >= 1 && fields[0].key == "request-type" && fields[0].val.JStr?
    ensures "message-id" !in Keys(fields)
  {
    match req
    case Authenticate(auth) =>
      [Field("request-type", JStr("Authenticate")), Field("auth", auth)]
    case GetAuthRequired =>
      [Field("request-type", JStr("GetAuthRequired"))]
    case GetSceneList =>
      [Field("request-type", JStr("GetSceneList"))]
    case GetVersion =>
      [Field("request-type", JStr("GetVersion"))]
    case SetCurrentScene(sceneName) =>
      [Field("request-type", JStr("SetCurrentScene")), Field("scene-name", sceneName)]
    case SetSourceRender(scene, source, render) =>
      var fields := [Field("request-type", JStr("SetSourceRender")), Field("scene-name", scene),
                     Field("source", source), Field("render", render)];
      assert Keys(fields[2..]) == ["source", "render"];
      assert Keys(fields) == ["request-type", "scene-name", "source", "render"];
      fields
  }

  /** Each request kind carries its own operation tag: no two kinds share one. */
  lemma RequestTypesDistinct(a: Request, b: Request)
    requires Body(a)[0] == Body(b)[0]
    ensures a.Authenticate? == b.Authenticate? && a.GetAuthRequired? == b.GetAuthRequired?
    ensures a.GetSceneList? == b.GetSceneList? && a.GetVersion? == b.GetVersion?
    ensures a.SetCurrentScene? == b.SetCurrentScene? && a.SetSourceRender? == b.SetSourceRender?
  {
  }

  /**
   * Stamping an identifier on a request appends `message-id` after the
   * request's own fields, so `setCurrentScene("Scene A")` goes out as
   * `{"request-type":"SetCurrentScene","scene-name":"Scene A","message-id":id}`.
   */
  lemma StampedBody(req: Request, id: string)
    ensures Put(Body(req), "message-id", JStr(id)) == Body(req) + [Field("message-id", JStr(id))]
    ensures req == SetCurrentScene(JStr("Scene A")) ==>
      Put(Body(req), "message-id", JStr(id)) ==
        [Field("request-type", JStr("SetCurrentScene")), Field("scene-name", JStr("Scene A")),
         Field("message-id", JStr(id))]
  {
  }
}
