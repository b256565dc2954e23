/**
 * The REST controller (`CvController.java`): each handler asks the node
 * service and turns its answer into a response status, a body and, for a
 * creation, a location. The service is the `CvNodeService` model.
 */
module Controller {
  import opened Common
  import opened Api
  import opened NodeService

  /** A `ResponseEntity`: status, body, and the `Location` header of a 201. */
  datatype Response = Response(status: int, body: Option<NodeDto>, location: Option<string>)

  const NodesPath := "/cv/nodes/"

  /** 200 with the node when there is one, 404 without a body otherwise. */
  function FoundOrNotFound(result: Option<NodeDto>): (r: Response)
    ensures r.status == 200 <==> result.Some?
    ensures r.status == 404 <==> result.None?
    ensures r.body == result && r.location.None?
  {
    if result.Some? then Response(200, result, None) else Response(404, None, None)
  }

  /** `ResponseEntity.created("/cv/nodes/" + id).body(created)`. */
  function CreatedResponse(created: NodeDto): (r: Response)
    ensures r.status == 201 && r.body == Some(created)
    ensures r.location.Some? && |r.location.value| == |NodesPath| + |created.id|
    ensures r.location.value[..|NodesPath|] == NodesPath && r.location.value[|NodesPath|..] == created.id
  {
    Response(201, Some(created), Some(NodesPath + created.id))
  }

  /** The response `updateNode` gives: 400 when the ids differ, else 200 or 404 by the update's result. */
  function UpdateResponse(pathId: string, cmd: UpdateNodeCommand, result: Option<NodeDto>): (r: Response)
    ensures r.status == 400 <==> pathId != cmd.id
    ensures r.status == 400 ==> r.body.None?
    ensures pathId == cmd.id ==> r == FoundOrNotFound(result)
  {
    if pathId != cmd.id then Response(400, None, None) else FoundOrNotFound(result)
  }

  /** `deleteNode`'s status: 204 when the service deleted the node, 404 otherwise. */
  function DeleteStatus(deleted: bool): (r: int)
    ensures r == 204 <==> deleted
    ensures r == 404 <==> !deleted
  {
    if deleted then 204 else 404
  }

  class CvController {
    const service: CvNodeService

    constructor(service: CvNodeService)
      ensures this.service == service
    {
      this.service := service;
    }

    /**
     * `GET /cv`: the active nodes. The endpoint wraps them in the one-field
     * record `CvDataDto(nodes)`; the model returns the list itself.
     */
    function GetAllNodes(): (r: seq<NodeDto>)
      requires service.Valid()
      reads service
      ensures r == service.GetAllNodes()
    {
      service.GetAllNodes()
    }

    /** `GET /cv/nodes/{id}`: 200 for an active node, 404 otherwise. */
    function GetNode(id: string): (r: Response)
      reads service
      ensures r.status == 200 <==> id in service.store && !service.store[id].deleted
      ensures r.status == 200 || r.status == 404
      ensures r.status == 200 ==> r.body == Some(ToDto(service.store[id]))
    {
      FoundOrNotFound(service.GetNode(id))
    }

    /** `GET /cv/nodes/{id}/children`. */
    function GetChildren(id: string): (r: seq<NodeDto>)
      requires service.Valid()
      reads service
      ensures r == service.GetChildren(id)
    {
      service.GetChildren(id)
    }

    /** `GET /cv/search?q=`. */
    function Search(q: string): (r: seq<NodeDto>)
      requires service.Valid()
      reads service
      ensures r == service.Search(q)
    {
      service.Search(q)
    }

    /** The five `POST /cv/nodes/<type>` endpoints: create, then 201 at the new node's path. */
    method CreateNode(cmd: CreateNodeCommand) returns (r: Response)
      requires service.Valid()
      modifies service
      ensures service.Valid()
      ensures service.store == old(service.store)[cmd.base.id := CreatedEntity(old(service.store), cmd)]
      ensures service.order ==
        if cmd.base.id in old(service.store) then old(service.order) else old(service.order) + [cmd.base.id]
      ensures r == CreatedResponse(ToDto(CreatedEntity(old(service.store), cmd)))
      ensures r.location == Some(NodesPath + cmd.base.id)
    {
      var created := service.Create(cmd);
      r := CreatedResponse(created);
    }

    /**
     * `PUT /cv/nodes/{id}`: a body naming another id is refused with 400
     * before the service is asked; otherwise 200 with the updated node or 404.
     */
    method UpdateNode(id: string, cmd: UpdateNodeCommand) returns (r: Response)
      requires service.Valid()
      modifies service
      ensures service.Valid()
      ensures id != cmd.id ==> r.status == 400 && service.store == old(service.store)
      ensures id == cmd.id ==>
        (r.status == 200 <==> cmd.id in old(service.store) && !old(service.store)[cmd.id].deleted)
      ensures id == cmd.id && r.status != 200 ==> r.status == 404 && service.store == old(service.store)
      ensures service.order == old(service.order)
      ensures r.status == 200 ==>
        var e := UpdatedEntity(old(service.store), old(service.store)[cmd.id], cmd);
        service.store == old(service.store)[cmd.id := e] && r.body == Some(ToDto(e))
    {
      if id != cmd.id {
        return Response(400, None, None);
      }
      var result := service.Update(cmd);
      r := UpdateResponse(id, cmd, result);
    }

    /** `DELETE /cv/nodes/{id}`: 204 when the node was active and is now flagged, 404 otherwise. */
    method DeleteNode(id: string) returns (status: int)
      requires service.Valid()
      modifies service
      ensures service.Valid()
      ensures status == 204 <==> id in old(service.store) && !old(service.store)[id].deleted
      ensures status != 204 ==> status == 404 && service.store == old(service.store)
      ensures status == 204 ==> service.store == old(service.store)[id := old(service.store)[id].(deleted := true)]
      ensures service.order == old(service.order)
    {
      var deleted := service.Delete(id);
      status := DeleteStatus(deleted);
    }
  }
}
