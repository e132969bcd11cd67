# docky core, modelled in Dafny

docky is a desktop front end for Docker. Its core does not call the Docker SDK. Instead, each service function builds an argument vector for the `docker` command-line tool, runs it with `subprocess.run`, and turns the text it prints into model records. This project models that core:

- **The runner.** `run_docker_command` turns an exit status and output into a `(success, text)` pair.
- **The four services.** Volumes, networks, containers and images. Each request they make is a datatype, its argument vector is a function of that datatype, and a parser reads a vector back. The round-trip lemmas show that no argument is lost, reordered or confused with another. Each service method builds its vector step by step, as the Python does. It is proved to issue exactly one `docker` invocation with that vector, and to return a specification function of the process's reply.
- **The JSON-lines decoder.** It is shared by every `get_<kind>s`. Its contract covers skipped lines, order, bounds and which exceptions escape. The two inspect styles are modelled too: element `[0]`, or the whole value.
- **The volume-usage scan.**
- **The record constructors.** `from_dict` for `Container`, `Image`, `Network` and `Volume` follows Python's evaluation order, so the model says which `KeyError` or `ValueError` escapes. Each has an if-and-only-if lemma that ties `from_dict` to a plain description of the record. The network timestamp's fraction truncation (`re.sub(r'(\.\d{6})\d+', r'\1', ...)`) is modelled concretely.
- **`DockyError`.** `ErrorType` values, `details or {}`, `to_dict`/`from_dict` in both directions, and `__str__`.
- **`DockerEngineManager`'s availability decision tree.** Installed, then running, then start, with dispatch on `platform.system()`.

## How the outside world is represented

- **Processes.** `subprocess.run`, `shutil.which` and `platform.system()` are a `Host` object (`Process.Host`). Its `Run` and `Which` choose any answer, and a ghost history records each invocation with its reply. Contracts therefore say which processes were started, in which order, and how the answers were used.
- **Library parsers.** `json.loads` and `datetime.strptime` are partial functions passed in as `Stdlib.Lib`; `None` means the call raises. Only the regular expression in `network.py` is modelled concretely.
- **Exceptions.** A Python exception is `Py.Outcome.Raised`. Each `try` catches exactly the exceptions the source names: `JSONDecodeError`, `KeyError` and, for volume and network inspect, `IndexError`. Every other exception escapes, as in Python.

## Behaviour of the code worth noting

- Container and image inspect pass the whole parsed value to `from_dict`, without taking an element. When that value is a JSON array, `data['ID']` raises `TypeError`, which no handler catches, so the call raises (`Decoder.InspectWhole`, `Decoder.InspectWholeKeepsArray`, `Stdlib.Get`). When it is a single object, the record is built from it.
- Volume and network inspect on a JSON object get `KeyError(0)` from `[0]` and give `None` (`Decoder.InspectFirstObject`).
- A `CreatedAt` that does not parse raises `ValueError`. The list loops catch only `JSONDecodeError` and `KeyError`, so one such line aborts the whole listing (`ContainerModel.BadTimestampEscapesListing`).
- `get_volume_usage` stops at the first line that fails to decode and returns `None`, where the list decoder would skip the line. An empty line also fails to decode. A line that decodes to something other than an object raises `AttributeError` from `.get`, which escapes.

## Model

| member | source | states |
|---|---|---|
| Runner.DockerCall | src/core/services/volume_service.py:22 | the process is `docker` followed by the command, unchanged, without a shell |
| Runner.CommandOutcome | src/core/services/volume_service.py:21-27 | success exactly on exit 0; then the stripped stdout; otherwise the fixed prefix plus the stripped stderr |
| Runner.CommandOutcomeText | src/core/services/volume_service.py:23-25 | the success text is already stripped; the failure text is the prefix followed by a stripped diagnostic that can be read back |
| Runner.RunDockerCommand | src/core/services/volume_service.py:11-27 | issues exactly one invocation, `docker` + command, and returns `CommandOutcome` of its reply |
| PyStr.Strip | src/core/services/volume_service.py:23 | the result is the input with its leading and trailing whitespace removed, and has none at either end |
| PyStr.StripUnique | src/core/services/volume_service.py:23 | any trimmed infix obtained by removing only whitespace is the result of `strip()` |
| PyStr.StripIdempotent | src/core/services/volume_service.py:23 | stripping twice is stripping once |
| PyStr.Split | src/core/services/volume_service.py:42 | `str.split('\n')`: at least one piece, and no piece contains the separator |
| PyStr.JoinSplit | src/core/services/volume_service.py:42 | joining the pieces with the separator gives back the output |
| PyStr.SplitJoin | src/core/services/volume_service.py:42 | splitting a join of separator-free pieces gives back the pieces |
| PyStr.IntToStringRoundTrip | src/core/services/container_service.py:146 | `str(tail)` for any integer, negative or zero, parses back to the same integer |
| PyStr.IntToString | src/core/services/container_service.py:146 | `str(n)`: at least one character, a leading `-` exactly for negative `n`, and decimal digits otherwise |
| PyStr.Prefix | src/core/models/container.py:62 | `s[:12]`: a prefix of `s` of length `min(|s|, 12)` |
| Py.Insert | src/core/services/container_service.py:124 | `list.insert(i, x)`: `x` at index `i`, the elements before it unchanged, the rest shifted by one |
| Stdlib.Get | src/core/models/volume.py:31-42 | `data[key]`: the member when present, `KeyError(key)` when missing, `TypeError` on a non-object |
| Stdlib.First | src/core/services/volume_service.py:70 | `data[0]`: the head of a non-empty array, `IndexError` on an empty one, `KeyError(0)` on an object |
| Stdlib.DictGet | src/core/services/volume_service.py:159-160 | `data.get(key)`: `None` exactly when missing, `AttributeError` on a non-object |
| Stdlib.GetAll | src/core/models/volume.py:31-42 | keys looked up in order: returns exactly when every key is present, with the values in order; otherwise `KeyError` for the first missing key |
| Stdlib.GetAllSeesOnlyKeys | src/core/models/volume.py:31-42 | the result depends only on the listed keys; extra members are ignored |
| Stdlib.ParseTime | src/core/models/container.py:44 | `strptime` returns exactly when the format matches, and raises `ValueError` otherwise |
| Decoder.Catch | src/core/services/volume_service.py:44-50 | a handled exception becomes `None`, a result is kept, and any other exception escapes unchanged |
| Decoder.Loads | src/core/services/volume_service.py:45 | `json.loads` raises `JSONDecodeError` exactly when the text is not JSON |
| Decoder.DecodeLines | src/core/services/volume_service.py:41-51 | the append loop computes the listing function over the lines |
| Decoder.DecodeLine | src/core/services/volume_service.py:42-50 | an empty or non-JSON line contributes nothing; a record only comes from `from_dict` of the parsed line; an exception escapes only when `from_dict` raised one other than `KeyError` |
| Decoder.DecodeListing | src/core/services/volume_service.py:40-51 | the listing raises exactly an exception some line raised, and returns only when no line raised |
| Decoder.ListReply | src/core/services/volume_service.py:36-51 | runner failure gives `[]`; otherwise there are at most as many records as non-empty output lines |
| Decoder.ListingBound | src/core/services/network_service.py:41-51 | never more records than non-empty lines |
| Decoder.ListingAllValid | src/core/services/image_service.py:41-51 | when every non-empty line decodes, there is exactly one record per non-empty line |
| Decoder.ListingConcat | src/core/services/container_service.py:41-51 | the listing of two blocks of lines is the first block's records followed by the second's, in order, or the first escaping exception |
| Decoder.SkippedLineIsInvisible | src/core/services/volume_service.py:43-50 | an empty, malformed or key-missing line does not affect the other lines' records |
| Decoder.MiddleLineMalformed | src/core/services/volume_service.py:47-48 | a malformed line between two good ones is dropped, and the others are kept in order |
| Decoder.InspectReply | src/core/services/volume_service.py:63-77 | runner failure gives `None`; a record is returned only when the command succeeded and its output was JSON |
| Decoder.InspectFirst | src/core/services/volume_service.py:68-77 | non-JSON output gives `None`; a record only comes from `from_dict` of element `[0]`; an escaping exception is never `JSONDecodeError`, `KeyError` or `IndexError`, and comes from `[0]` or from `from_dict` |
| Decoder.InspectWhole | src/core/services/container_service.py:68-75 | non-JSON output gives `None`; a record only comes from `from_dict` of the whole parsed value; an escaping exception is one `from_dict` raised, other than `KeyError` |
| Decoder.InspectFirstEmpty | src/core/services/volume_service.py:75-77 | an empty inspect array gives `None` |
| Decoder.InspectFirstObject | src/core/services/volume_service.py:70-74 | an object instead of an array gives `None`, through `KeyError(0)` |
| Decoder.InspectFirstTakesHead | src/core/services/network_service.py:63-77 | only element 0 is decoded; the rest of the array is ignored |
| Decoder.InspectWholeKeepsArray | src/core/services/container_service.py:68-70 | the whole parsed array goes to `from_dict`, with no indexing |
| Decoder.ScanUsage | src/core/services/volume_service.py:156-167 | the early-return loop computes the usage-scan function over the lines |
| Decoder.UsageScan | src/core/services/volume_service.py:156-167 | a `Size` is returned only from a parsed line whose `Name` is the volume; the only exception that escapes is `AttributeError`, from a line that is JSON but not an object |
| Decoder.UsageFirstMatch | src/core/services/volume_service.py:157-160 | when every line before the first match decodes and does not match, the result is that line's `Size`, or `None` when it has none |
| Decoder.UsageStopsAtBadLine | src/core/services/volume_service.py:161-167 | a line that fails to decode before any match ends the search with `None` |
| Decoder.UsageNoMatch | src/core/services/volume_service.py:166-167 | no matching line gives `None` |
| Decoder.UsageReply | src/core/services/volume_service.py:151-154 | runner failure gives `None` |
| Argv.OptionFlags | src/core/services/volume_service.py:92-94 | two arguments per option, `--opt` then `key=value`, in iteration order |
| Argv.OptionArgs | src/core/services/volume_service.py:92 | `None` options add nothing |
| Argv.Items | src/core/services/volume_service.py:92-94 | the flags for an optional dict are those of its items; `None` and `{}` have no items |
| Argv.ExtendWithOptions | src/core/services/network_service.py:91-94 | the extend loop leaves the command followed by exactly the option flags |
| Argv.OptionFlagsSnoc | src/core/services/volume_service.py:93-94 | each turn of the loop adds its own pair after those of the earlier entries |
| Argv.KeyValueSplits | src/core/services/volume_service.py:94 | `key=value` splits back at the first `=` when the key has none |
| Argv.OptionFlagsRecoverable | src/core/services/volume_service.py:92-94 | the options can be read back from the flags, in order, when no key contains `=` |
| Argv.EqualsInKeyIsAmbiguous | src/core/services/volume_service.py:94 | with an `=` in a key, two different option dicts give the same flags |
| VolumeService.VolumeArgvRoundTrip | src/core/services/volume_service.py:36-186 | every volume request, including the driver, options, name, `-f` and both sides of a copy, is recovered from its vector |
| VolumeService.GetVolumes | src/core/services/volume_service.py:29-51 | one `volume ls` call; the result is the listing reply of its output |
| VolumeService.GetVolumeByName | src/core/services/volume_service.py:53-77 | one `volume inspect` call; element 0 is decoded, with `IndexError` caught |
| VolumeService.CreateVolume | src/core/services/volume_service.py:79-102 | issues `volume create --driver d`, then the option flags, then the name; returns the runner's flag |
| VolumeService.RemoveVolume | src/core/services/volume_service.py:104-125 | `-f` is appended before the name exactly when forced; returns the runner's flag |
| VolumeService.PruneVolumes | src/core/services/volume_service.py:127-139 | always `volume prune -f`; returns the runner's flag |
| VolumeService.GetVolumeUsage | src/core/services/volume_service.py:141-167 | one `system df -v` call filtered to volumes; the result is the usage reply |
| VolumeService.CopyVolume | src/core/services/volume_service.py:169-193 | one throw-away `alpine` container, with the source at `/from` and the destination at `/to`; returns the runner's flag |
| NetworkService.NetworkArgvRoundTrip | src/core/services/network_service.py:36-164 | every network request is recovered from its vector; the network always precedes the container |
| NetworkService.GetNetworks | src/core/services/network_service.py:29-51 | one `network ls` call; the listing reply |
| NetworkService.GetNetworkById | src/core/services/network_service.py:53-77 | one `network inspect` call; element 0 is decoded |
| NetworkService.CreateNetwork | src/core/services/network_service.py:79-102 | `network create --driver d`, then the option flags, then the name; the runner's flag |
| NetworkService.RemoveNetwork | src/core/services/network_service.py:104-119 | always `network rm id`, with no force; the runner's flag |
| NetworkService.ConnectContainerToNetwork | src/core/services/network_service.py:121-137 | `network connect` with the network id first, then the container id; the runner's flag |
| NetworkService.DisconnectContainerFromNetwork | src/core/services/network_service.py:139-155 | `network disconnect` with the network id first; the runner's flag |
| NetworkService.PruneNetworks | src/core/services/network_service.py:157-169 | always `network prune -f`; the runner's flag |
| ContainerService.ContainerArgvRoundTrip | src/core/services/container_service.py:36-146 | every container request is recovered; `-f` exactly when forced; `--tail n` exactly when a tail is given, including 0 |
| ContainerService.GetContainers | src/core/services/container_service.py:29-51 | one `ps -a` call; the listing reply, with timestamp `ValueError`s escaping |
| ContainerService.GetContainerById | src/core/services/container_service.py:53-75 | one generic `inspect` call; the whole value is decoded, without `IndexError` handling |
| ContainerService.StartContainer | src/core/services/container_service.py:77-92 | `start id`; the runner's flag |
| ContainerService.StopContainer | src/core/services/container_service.py:94-109 | `stop id`; the runner's flag |
| ContainerService.RemoveContainer | src/core/services/container_service.py:111-131 | `rm id`, with `-f` inserted at index 1 when forced; the runner's flag |
| ContainerService.GetContainerLogs | src/core/services/container_service.py:133-153 | `logs id`, plus `--tail str(tail)` when a tail is given; the stripped output exactly when the command succeeds, otherwise `None` |
| ImageService.ImageArgvRoundTrip | src/core/services/image_service.py:36-144 | every image request is recovered; `-f` exactly when forced; the image before its new tag |
| ImageService.GetImages | src/core/services/image_service.py:29-51 | one `images` call; the listing reply |
| ImageService.GetImageById | src/core/services/image_service.py:53-75 | one generic `inspect` call; the whole value is decoded |
| ImageService.PullImage | src/core/services/image_service.py:77-92 | `pull name`; the runner's flag |
| ImageService.RemoveImage | src/core/services/image_service.py:94-114 | `rmi id`, with `-f` inserted at index 1 when forced; the runner's flag |
| ImageService.TagImage | src/core/services/image_service.py:116-132 | `tag id new_tag`, in that order; the runner's flag |
| ImageService.PushImage | src/core/services/image_service.py:134-149 | `push name`; the runner's flag |
| VolumeModel.VolumeFromDict | src/core/models/volume.py:20-42 | returns exactly when all ten keys are present, otherwise `KeyError` for the first missing key in source order, and `TypeError` on a non-object |
| VolumeModel.VolumeFromDictDescribes | src/core/models/volume.py:31-42 | `from_dict` gives `v` if and only if each of the ten keys holds the matching field of `v` verbatim |
| VolumeModel.VolumeString | src/core/models/volume.py:51 | the rendering starts with `Volume(name=` |
| VolumeModel.VolumeStringShows | src/core/models/volume.py:51 | the rendering depends only on name, driver and scope |
| VolumeModel.VolumeStringShowsName | src/core/models/volume.py:51 | the name can be read back from the rendering when it has no comma |
| NetworkModel.DigitRun | src/core/models/network.py:33 | the length of the leading run of `\d` characters |
| NetworkModel.Truncate | src/core/models/network.py:33 | the substitution never lengthens the text |
| NetworkModel.TruncateDigitRun | src/core/models/network.py:33 | the substitution keeps the length of a leading digit run |
| NetworkModel.TruncateClean | src/core/models/network.py:33 | after substitution no `.` is followed by more than six digits |
| NetworkModel.TruncateFixedIffClean | src/core/models/network.py:33 | the substitution leaves a text unchanged if and only if no `.` in it is followed by more than six digits |
| NetworkModel.TruncateIdempotent | src/core/models/network.py:33 | applying the substitution twice is applying it once |
| NetworkModel.TruncateKeepsSix | src/core/models/network.py:33 | a dot followed by seven or more digits keeps the dot and exactly the first six digits, drops the rest of the run, and the scan continues after it |
| NetworkModel.TruncateKeepsShort | src/core/models/network.py:33 | a dot followed by at most six digits is kept whole |
| NetworkModel.NetworkFromDict | src/core/models/network.py:21-45 | `CreatedAt` first (`KeyError`), then the parse of the truncated text (`ValueError`), then the seven other keys in order |
| NetworkModel.NetworkFromDictDescribes | src/core/models/network.py:33-45 | `from_dict` gives `n` if and only if the seven keys hold `n`'s text fields and the truncated `CreatedAt` parses to `n.createdAt` |
| NetworkModel.CleanTimestampParsedVerbatim | src/core/models/network.py:33-34 | a timestamp with at most six fraction digits is parsed as written |
| NetworkModel.NetworkString | src/core/models/network.py:54 | the rendering starts with `Network(id=` |
| NetworkModel.NetworkStringShortId | src/core/models/network.py:54 | ids with the same first 12 characters render the same |
| NetworkModel.NetworkStringShowsShortId | src/core/models/network.py:54 | the shown id is exactly the first 12 characters, at most 12 long |
| ContainerModel.ContainerFromDict | src/core/models/container.py:28-53 | `KeyError` for the first missing key up to `CreatedAt`, then `ValueError` from the parse, then `KeyError` for later keys; on success `created_at` is the raw text and `created` is its parse |
| ContainerModel.ContainerFromDictDescribes | src/core/models/container.py:38-53 | `from_dict` gives `c` if and only if the 13 keys (the name from `Names`) hold `c`'s text fields and `CreatedAt` parses to `c.created` |
| ContainerModel.DescribedIsBuilt | src/core/models/container.py:38-53 | a dict that describes a container builds it |
| ContainerModel.BuiltIsDescribed | src/core/models/container.py:38-53 | a built container is described by its dict |
| ContainerModel.BadTimestampEscapesListing | src/core/models/container.py:44 | one unparseable `CreatedAt` aborts the whole container listing with `ValueError` |
| ContainerModel.ContainerString | src/core/models/container.py:62 | the rendering starts with `Container(id=` |
| ContainerModel.ContainerStringShortId | src/core/models/container.py:62 | the rendering depends only on `id[:12]`, name and status |
| ContainerModel.ContainerStringShowsShortId | src/core/models/container.py:62 | the shown id is exactly `id[:12]` |
| ImageModel.ImageFromDict | src/core/models/image.py:25-47 | the error order of the evaluation; on success `created_at` is the parse of `CreatedAt` |
| ImageModel.ImageFromDictDescribes | src/core/models/image.py:35-47 | `from_dict` gives `img` if and only if the ten text keys hold its fields and `CreatedAt` parses to its timestamp |
| ImageModel.DescribedIsBuilt | src/core/models/image.py:35-47 | a dict that describes an image builds it |
| ImageModel.BuiltIsDescribed | src/core/models/image.py:35-47 | a built image is described by its dict |
| ImageModel.ImageForgetsTimestampText | src/core/models/image.py:39 | no raw copy of `CreatedAt` is kept: texts that parse alike give the same image |
| ImageModel.ImageString | src/core/models/image.py:56 | the rendering starts with `Image(id=` |
| ImageModel.ImageStringShortId | src/core/models/image.py:56 | the rendering depends only on `id[:12]`, repository and tag |
| ImageModel.ImageStringShowsShortId | src/core/models/image.py:56 | the shown id is exactly `id[:12]` |
| ErrorModel.TypeFromValue | src/core/models/error.py:65 | `ErrorType(v)` returns the member whose value is `v`, and raises `ValueError` when there is none |
| ErrorModel.TypeValueRoundTrip | src/core/models/error.py:7-12 | every member is found again from its value |
| ErrorModel.TypeValuesDistinct | src/core/models/error.py:7-12 | the six values are distinct |
| PyStr.Upper | src/core/models/error.py:77 | `.upper()`: same length; exactly the ASCII lower-case letters change, each to an upper-case letter |
| ErrorModel.UpperValueIsMemberName | src/core/models/error.py:7-12 | upper-casing a value gives the member's name |
| ErrorModel.NewDockyError | src/core/models/error.py:23-38 | type and message are kept; truthy details are kept; `None` and other falsy details become `{}` |
| ErrorModel.NewDockyErrorKeepsNormalized | src/core/models/error.py:37 | building again from an error's own fields changes nothing |
| ErrorModel.ToDict | src/core/models/error.py:40-51 | exactly the keys `error_type`, `message` and `details`; `error_type` holds the value of the type |
| ErrorModel.ErrorFromDict | src/core/models/error.py:53-68 | `KeyError('error_type')`, then `ValueError` for an unknown value, then `KeyError('message')`; a missing `details` gives `{}` |
| ErrorModel.ErrorDictRoundTrip | src/core/models/error.py:47-51 | `from_dict(e.to_dict())` is `e` |
| ErrorModel.DictErrorRoundTrip | src/core/models/error.py:64-68 | `to_dict(from_dict(d))` keeps `d`'s type value and message, and its details when they are truthy |
| ErrorModel.ErrorString | src/core/models/error.py:70-77 | the member name, `": "`, then the message |
| ErrorModel.ErrorStringShowsType | src/core/models/error.py:77 | the type can be read back from the text before the first colon |
| DockerEngine.StartCommand | src/core/docker_engine.py:52-61 | a start command exactly for Linux, Darwin and Windows; only the Windows one uses the shell; none is `docker info` |
| DockerEngine.StartCommandNamesSystem | src/core/docker_engine.py:52-61 | different supported systems get different start commands |
| DockerEngine.IsDockerInstalled | src/core/docker_engine.py:16-24 | one lookup of `docker` and no process; true exactly when a path is found |
| DockerEngine.IsDockerRunning | src/core/docker_engine.py:26-38 | one `docker info`; true exactly when it exits 0 |
| DockerEngine.StartDockerLinux | src/core/docker_engine.py:63-77 | one `sudo systemctl start docker`; true exactly when it exits 0 |
| DockerEngine.StartDockerMacos | src/core/docker_engine.py:79-93 | one `open -a Docker`; true exactly when it exits 0 |
| DockerEngine.StartDockerWindows | src/core/docker_engine.py:95-109 | one `start docker` through the shell; true exactly when it exits 0 |
| DockerEngine.StartDockerEngine | src/core/docker_engine.py:40-61 | probe first; if running, true with nothing else started; otherwise the system's start command decides the answer; an unsupported system gives false |
| DockerEngine.EnsureDockerRunning | src/core/docker_engine.py:161-177 | not installed gives false with no process; installed and running gives true after one probe; otherwise the answer of `start_docker_engine`, which probes again |
| DockerEngine.EnsureReportsOnlyAnswers | src/core/docker_engine.py:173-175 | running is reported only when the second probe or the start command exited 0 |

## Left out

- Logging: `logger` calls have no effect on any return value.
- Launch failures of a process (`FileNotFoundError` when `docker`, `sudo` or `open` is missing) are not modelled. Only `CalledProcessError`, a non-zero exit, is. The same holds for `capture_output` versus inherited output in the engine manager.
- `DockerEngineManager.stop_docker_engine` and `get_docker_version` are single process calls with nothing to state beyond the reply.
- `DockerEngineManager.run_docker_command` and the copies in the four services are identical, so they are modelled once, as `Runner.RunDockerCommand`.
- `src/core/docker_client.py` (an asynchronous wrapper over the Docker SDK, whose types are not visible), `src/core/models/base_model.py` (abstract only), the PySide6 user interface, `src/main.py` and packaging are not part of this model.
- JSON syntax and `datetime.strptime` are abstract partial functions (`Stdlib.Lib`). As a result, "the network format requires a fraction, so a `CreatedAt` without one fails to parse" is a property of `strptime` that the model cannot state. The model keeps the two formats as constants and proves everything up to the parse.
- JSON member values are kept as text, as `docker --format '{{json .}}'` prints them. Values that are numbers or booleans in JSON (for example `Containers`) are not distinguished.
- `\d` in the network regular expression is modelled as the ASCII digits. Python's `\d` on `str` also matches other Unicode decimal digits.
- Python's default arguments (`driver="local"`, `driver="bridge"`, `force=False`, `tail=None`) are constants or explicit parameters (`VolumeService.DefaultVolumeDriver`, `NetworkService.DefaultNetworkDriver`). The caller supplies them.
- An options dict is modelled as the sequence of its items in iteration order.
- ErrorModel.ErrorFromDict: requires `message` to be text when present. The constructor declares `message: str`, and a non-text message is not given a meaning here.
- ErrorModel.NewDockyError: `details` is any `PyValue`. The constructor's declared type is `Optional[Dict]`, and falsiness is modelled for all values.
- Argv.OptionFlagsRecoverable and the create round trips: they hold only for option keys without `=`. `Argv.EqualsInKeyIsAmbiguous` shows the flags are ambiguous otherwise.
- Mutation of Python lists in place (`append`, `extend`, `insert`) is modelled as reassignment of a `seq` local, because the lists never escape or alias.
