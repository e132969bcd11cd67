/** The image service (src/core/services/image_service.py): each function
    builds a `docker` argument vector, runs it once and interprets the
    answer. `ParseImageArgv` reads a vector back. */
module ImageService {

  import opened Py
  import opened PyStr
  import opened Stdlib
  import opened Process
  import opened Runner
  import opened Decoder
  import opened ImageModel

  datatype ImageRequest =
    | Images
    | Inspect(imageId: string)
    | Pull(imageName: string)
    | Rmi(imageId: string, force: bool)
    | Tag(imageId: string, newTag: string)
    | Push(imageName: string)

  /** The arguments after `docker` for each request. Inspect is the
      generic `docker inspect`, not `docker image inspect`. */
  function ImageArgv(req: ImageRequest): seq<string> {
    match req
    case Images => ["images"] + FormatJson
    case Inspect(imageId) => ["inspect"] + FormatJson + [imageId]
    case Pull(imageName) => ["pull", imageName]
    case Rmi(imageId, force) => if force then ["rmi", "-f", imageId] else ["rmi", imageId]
    case Tag(imageId, newTag) => ["tag", imageId, newTag]
    case Push(imageName) => ["push", imageName]
  }

  /** Which request an argument vector makes, if it is one of them. */
  function ParseImageArgv(argv: seq<string>): Option<ImageRequest> {
    if argv == ["images"] + FormatJson then Some(Images)
    else if |argv| == 4 && argv[..3] == ["inspect"] + FormatJson then Some(Inspect(argv[3]))
    else if |argv| == 2 && argv[0] == "pull" then Some(Pull(argv[1]))
    else if |argv| == 3 && argv[..2] == ["rmi", "-f"] then Some(Rmi(argv[2], true))
    else if |argv| == 2 && argv[0] == "rmi" then Some(Rmi(argv[1], false))
    else if |argv| == 3 && argv[0] == "tag" then Some(Tag(argv[1], argv[2]))
    else if |argv| == 2 && argv[0] == "push" then Some(Push(argv[1]))
    else None
  }

  /** Every request can be read back from its argument vector: `-f`
      exactly when forced, and the image before its new tag. */
  lemma ImageArgvRoundTrip(req: ImageRequest)
    ensures ParseImageArgv(ImageArgv(req)) == Some(req)
  {
    var argv := ImageArgv(req);
    match req
    case Images =>
    case Inspect(imageId) =>
      assert argv[..3] == ["inspect"] + FormatJson;
    case Pull(imageName) =>
    case Rmi(imageId, force) =>
      if force {
        assert argv[0] != "images" && argv[..2] == ["rmi", "-f"];
      }
    case Tag(imageId, newTag) =>
      assert argv[0] != "images" && argv[0] != "inspect" && argv[0] != "pull" && argv[0] != "rmi";
    case Push(imageName) =>
      assert argv[0] != "images" && argv[0] != "inspect" && argv[0] != "pull" && argv[0] != "rmi";
  }

  /** `run_docker_command` was called once more, with the vector of `req`. */
  ghost predicate RanOnce(before: seq<Exchange>, after: seq<Exchange>, req: ImageRequest) {
    Issued(before, after, [DockerCall(ImageArgv(req))])
  }

  /** `get_images()`. */
  method GetImages(host: Host, lib: Lib) returns (r: Outcome<seq<Image>>)
    modifies host
    ensures RanOnce(old(host.history), host.history, Images) && host.lookups == old(host.lookups)
    ensures r == ListReply(Last(host.history).reply, lib.loads, ImageDecoder(lib))
  {
    var command := ["images", "--format", "{{json .}}"];
    assert command == ImageArgv(Images);
    var success, output := RunDockerCommand(host, command);
    if !success {
      return Returned([]);
    }
    r := DecodeLines(Split(output, '\n'), lib.loads, ImageDecoder(lib));
  }

  /** `get_image_by_id(image_id)`: the whole inspect output goes to
      `from_dict`, without taking element 0. */
  method GetImageById(host: Host, lib: Lib, imageId: string) returns (r: Outcome<Option<Image>>)
    modifies host
    ensures RanOnce(old(host.history), host.history, Inspect(imageId)) && host.lookups == old(host.lookups)
    ensures r == InspectReply(Last(host.history).reply, false, lib.loads, ImageDecoder(lib))
  {
    var command := ["inspect", "--format", "{{json .}}", imageId];
    assert command == ImageArgv(Inspect(imageId));
    var success, output := RunDockerCommand(host, command);
    if !success {
      return Returned(None);
    }
    r := InspectWhole(output, lib.loads, ImageDecoder(lib));
  }

  /** `pull_image(image_name)`. */
  method PullImage(host: Host, imageName: string) returns (success: bool)
    modifies host
    ensures RanOnce(old(host.history), host.history, Pull(imageName)) && host.lookups == old(host.lookups)
    ensures success == Succeeded(Last(host.history).reply)
  {
    var output;
    success, output := RunDockerCommand(host, ["pull", imageName]);
  }

  /** `remove_image(image_id, force)`: `-f` is inserted at index 1. */
  method RemoveImage(host: Host, imageId: string, force: bool) returns (success: bool)
    modifies host
    ensures RanOnce(old(host.history), host.history, Rmi(imageId, force)) && host.lookups == old(host.lookups)
    ensures success == Succeeded(Last(host.history).reply)
  {
    var command := ["rmi", imageId];
    if force {
      command := Insert(command, 1, "-f");
    }
    assert command == ImageArgv(Rmi(imageId, force));
    var output;
    success, output := RunDockerCommand(host, command);
  }

  /** `tag_image(image_id, new_tag)`. */
  method TagImage(host: Host, imageId: string, newTag: string) returns (success: bool)
    modifies host
    ensures RanOnce(old(host.history), host.history, Tag(imageId, newTag)) && host.lookups == old(host.lookups)
    ensures success == Succeeded(Last(host.history).reply)
  {
    var output;
    success, output := RunDockerCommand(host, ["tag", imageId, newTag]);
  }

  /** `push_image(image_name)`. */
  method PushImage(host: Host, imageName: string) returns (success: bool)
    modifies host
    ensures RanOnce(old(host.history), host.history, Push(imageName)) && host.lookups == old(host.lookups)
    ensures success == Succeeded(Last(host.history).reply)
  {
    var output;
    success, output := RunDockerCommand(host, ["push", imageName]);
  }
}
