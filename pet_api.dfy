/** The Pet resource client: the Pet record and, for each client operation,
    the HTTP request it sends. The transport itself (base URL, headers,
    timeout) is not modelled; an operation is the request it would issue,
    and its outcome is whatever the transport reports, passed on unchanged. */
module PetApi {
  import opened Wrappers
  import opened Numbers

  /** The three statuses a pet may have. */
  datatype Status = Available | Pending | Sold

  /** The wire name of a status. */
  function StatusName(s: Status): (r: string)
    ensures ParseStatus(r) == Some(s)
  {
    match s
    case Available => "available"
    case Pending => "pending"
    case Sold => "sold"
  }

  /** Reads a wire name back; any other text names no status. */
  function ParseStatus(name: string): Option<Status> {
    if name == "available" then Some(Available)
    else if name == "pending" then Some(Pending)
    else if name == "sold" then Some(Sold)
    else None
  }

  datatype Category = Category(id: Option<Number>, name: Option<string>)

  datatype Tag = Tag(id: Option<Number>, name: Option<string>)

  /** A pet always has a name and a list of photo URLs; its id, category,
      tags and status may each be absent. */
  datatype Pet = Pet(
    id: Option<nat>,
    name: string,
    category: Option<Category>,
    photoUrls: seq<string>,
    tags: Option<seq<Tag>>,
    status: Option<Status>)

  /** Why a request failed: the network, or a response whose status is not
      a success. */
  datatype ApiError = NetworkError | HttpError(status: nat)

  datatype HttpMethod = Get | Post | Put | Delete

  /** A file chosen for upload; its bytes are not modelled. */
  datatype FileRef = FileRef(name: string)

  datatype Part = FilePart(key: string, file: FileRef) | TextPart(key: string, value: string)

  /** A request body: none, a pet as JSON, URL-encoded fields or multipart
      form data. The content type follows from the kind of body. */
  datatype Body =
    | NoBody
    | JsonPet(pet: Pet)
    | UrlEncoded(fields: seq<(string, string)>)
    | Multipart(parts: seq<Part>)

  datatype Request = Request(verb: HttpMethod, path: string, query: seq<(string, string)>, body: Body)

  /** `!x` for a `string | undefined` argument: absent or empty. */
  predicate IsFilled(s: Option<string>) {
    s.Some? && s.value != ""
  }

  /** `!!petId` for a `number | undefined` id: present and not zero. */
  predicate IsUsableId(petId: Option<nat>)
  {
    petId.Some? && petId.value != 0
  }

  const PetCollection: string := "/pet"

  /** The path of one pet, `/pet/{petId}`. */
  function PetPath(petId: nat): string {
    PetCollection + "/" + NatToString(petId)
  }

  /** The pet a path of the form `/pet/{petId}` addresses, if it has that
      form. */
  function TargetPet(path: string): Option<nat> {
    if |path| > 5 && path[..5] == "/pet/" then ParseNat(path[5..]) else None
  }

  lemma TargetOfPetPath(petId: nat)
    ensures TargetPet(PetPath(petId)) == Some(petId)
  {
    var p := PetPath(petId);
    assert p[..5] == "/pet/" && p[5..] == NatToString(petId);
    ParseNatToString(petId);
  }

  /** `createPet`: the pet, unchanged, as the JSON body of `POST /pet`. */
  function CreatePet(pet: Pet): (r: Request)
    ensures r.verb == Post && r.path == PetCollection && TargetPet(r.path) == None
    ensures r.query == [] && r.body == JsonPet(pet)
  {
    Request(Post, PetCollection, [], JsonPet(pet))
  }

  /** `updatePet`: the pet, unchanged, as the JSON body of `PUT /pet`. */
  function UpdatePet(pet: Pet): (r: Request)
    ensures r.verb == Put && r.path == PetCollection && TargetPet(r.path) == None
    ensures r.query == [] && r.body == JsonPet(pet)
  {
    Request(Put, PetCollection, [], JsonPet(pet))
  }

  /** `deletePet`: `DELETE` addressed to exactly that pet, without a body. */
  function DeletePet(petId: nat): (r: Request)
    ensures r.verb == Delete && TargetPet(r.path) == Some(petId)
    ensures r.query == [] && r.body == NoBody
  {
    TargetOfPetPath(petId);
    Request(Delete, PetPath(petId), [], NoBody)
  }

  /** `fetchPetById`: `GET` addressed to exactly that pet, without a body. */
  function FetchPetById(petId: nat): (r: Request)
    ensures r.verb == Get && TargetPet(r.path) == Some(petId)
    ensures r.query == [] && r.body == NoBody
  {
    TargetOfPetPath(petId);
    Request(Get, PetPath(petId), [], NoBody)
  }

  /** `findPetsByStatus`: one `status` query parameter naming the given
      status, or `available` when none is given. */
  function FindPetsByStatus(status: Option<Status>): (r: Request)
    ensures r.verb == Get && r.path == "/pet/findByStatus" && r.body == NoBody
    ensures |r.query| == 1 && r.query[0].0 == "status"
    ensures ParseStatus(r.query[0].1) == Some(if status.Some? then status.value else Available)
  {
    Request(Get, "/pet/findByStatus", [("status", StatusName(status.GetOr(Available)))], NoBody)
  }

  /** `findPetsByTags`: one repeated `tags` parameter per tag, in order
      (`tags=a&tags=b`, the serializer writing no indexes). */
  function FindPetsByTags(tags: seq<string>): (r: Request)
    ensures r.verb == Get && r.path == "/pet/findByTags" && r.body == NoBody
    ensures |r.query| == |tags|
    ensures forall i :: 0 <= i < |tags| ==> r.query[i] == ("tags", tags[i])
  {
    Request(Get, "/pet/findByTags", seq(|tags|, i requires 0 <= i < |tags| => ("tags", tags[i])), NoBody)
  }

  /** The value of the first field named `key`, if any. */
  function Lookup(fields: seq<(string, string)>, key: string): Option<string> {
    if fields == [] then None
    else if fields[0].0 == key then Some(fields[0].1)
    else Lookup(fields[1..], key)
  }

  /** `updatePetWithForm`: a URL-encoded `POST` to that pet whose body holds
      `name` exactly when a non-empty name is given and `status` exactly when
      a non-empty status is given, `name` first. */
  method UpdatePetWithForm(petId: nat, name: Option<string>, status: Option<string>) returns (r: Request)
    ensures r.verb == Post && TargetPet(r.path) == Some(petId) && r.query == []
    ensures r.body.UrlEncoded?
    ensures Lookup(r.body.fields, "name") == (if IsFilled(name) then name else None)
    ensures Lookup(r.body.fields, "status") == (if IsFilled(status) then status else None)
    ensures |r.body.fields| == (if IsFilled(name) then 1 else 0) + (if IsFilled(status) then 1 else 0)
    ensures IsFilled(name) ==> r.body.fields[0].0 == "name"
  {
    var fields: seq<(string, string)> := [];
    if IsFilled(name) {
      fields := fields + [("name", name.value)];
    }
    if IsFilled(status) {
      fields := fields + [("status", status.value)];
    }
    TargetOfPetPath(petId);
    r := Request(Post, PetPath(petId), [], UrlEncoded(fields));
  }

  /** `uploadPetImage`: a multipart `POST` to `/pet/{petId}/uploadImage`
      whose first part is always the file, followed by `additionalMetadata`
      exactly when a non-empty one is given. */
  method UploadPetImage(petId: nat, file: FileRef, additionalMetadata: Option<string>) returns (r: Request)
    ensures r.verb == Post && r.path == PetPath(petId) + "/uploadImage" && r.query == []
    ensures r.body.Multipart? && |r.body.parts| >= 1 && r.body.parts[0] == FilePart("file", file)
    ensures |r.body.parts| == (if IsFilled(additionalMetadata) then 2 else 1)
    ensures IsFilled(additionalMetadata) ==>
              r.body.parts[1] == TextPart("additionalMetadata", additionalMetadata.value)
  {
    var parts := [FilePart("file", file)];
    if IsFilled(additionalMetadata) {
      parts := parts + [TextPart("additionalMetadata", additionalMetadata.value)];
    }
    r := Request(Post, PetPath(petId) + "/uploadImage", [], Multipart(parts));
  }

  /** Omitting the status argument of `findPetsByStatus` is the same as
      asking for `available`. */
  lemma FindByStatusDefault()
    ensures FindPetsByStatus(None) == FindPetsByStatus(Some(Available))
  {
  }

  /** `deletePet` and `fetchPetById` address the same resource, one with
      `DELETE` and the other with `GET`, and different ids address
      different resources. */
  lemma DeleteAndFetchShareTarget(petId: nat, other: nat)
    ensures DeletePet(petId).path == FetchPetById(petId).path
    ensures other != petId ==> DeletePet(other).path != DeletePet(petId).path
  {
    TargetOfPetPath(petId);
    TargetOfPetPath(other);
  }
}
