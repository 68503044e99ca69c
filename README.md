# Dockerfile generation and build/push error handling of the Ballerina Docker extension

This project models the decision logic of `DockerArtifactHandler`, the class of the
Ballerina Docker extension that writes the Dockerfile for a Ballerina program and
drives image builds and pushes against the Docker engine.

- **Dockerfile generation** (`generate`): a `DockerModel` (base image, the `.balx`
  artifact, the embedded files, the service flag and ports, the debug settings) is
  rendered as a header, `FROM`, the maintainer `LABEL`, a `COPY` of the artifact,
  one `COPY` per embedded file, an `EXPOSE` line when the program is a service with
  ports, and the `CMD ballerina run` line with a `--config` flag per Ballerina config
  file, an optional `--debug` flag and the artifact name. `DockerfileText.Dockerfile`
  is the specification of the text; `DockerArtifactHandler.Generate` builds it by
  appending to one buffer with the source's loops and is proved to produce exactly that
  text. The lemmas state what the text says about the model: the header, each COPY line
  in file order, EXPOSE exactly for services with ports (and the port list reads back
  to the ports), the config flags only for config files in order, the debug flag only
  when enabled, and the artifact last.
- **Error record and error check** (`DockerError`, `handleError`): a record that starts
  clear, is set with a message by the listener's error callbacks, and is checked after
  the operation completes. `DockerErrors.Listen` is one listener callback,
  `DockerErrors.AwaitOperation` a build or push seen sequentially: fresh record,
  callbacks up to the first terminal one, then the check.
- **Java library pieces** the text depends on (`JavaText`): the decimal rendering of an
  `int` and `Paths.get(p).getFileName()` for Unix paths.

Files: `wrappers.dfy` (Option), `slices.dfy` (concatenation and slicing facts),
`java_text.dfy`, `dockerfile.dfy`, `docker_error.dfy`.

In the source, `DockerError` is a static nested class of `DockerArtifactHandler` and
`handleError` is a private method of the handler. The model splits them out: the handler
class and its Dockerfile generation live in the `DockerfileText` module, while the record
class `DockerError`, the listener and `HandleError` (a module-level method, since it reads
no handler state) live in the `DockerErrors` module.

The ports are a sequence in the order the model's collection yields them: the source
iterates a `Set<Integer>` whose order it does not fix, so the model takes whatever order
is given and proves its properties for every order.

## Model

| member | source | states |
|---|---|---|
| JavaText.NatToDecimalDigits | docker-extension/src/main/java/org/ballerinax/docker/DockerArtifactHandler.java:207 | the decimal form of a port or debug port is a non-empty string of digits with no leading zero |
| JavaText.DecimalRoundTrip | docker-extension/src/main/java/org/ballerinax/docker/DockerArtifactHandler.java:218 | the decimal form denotes the number: reading its digits back gives it |
| JavaText.IntToStringShape | docker-extension/src/main/java/org/ballerinax/docker/DockerArtifactHandler.java:207 | an appended port is non-empty, holds no space, and starts with '-' exactly when negative |
| JavaText.IntToStringRoundTrip | docker-extension/src/main/java/org/ballerinax/docker/DockerArtifactHandler.java:207 | parsing an appended int gives it back, so distinct ports render differently |
| JavaText.IntToString | docker-extension/src/main/java/org/ballerinax/docker/DockerArtifactHandler.java:207 | the text appended for an `int` (a port at line 207, the debug port at line 218): a '-' for a negative value, then the decimal digits of the magnitude; IntToStringRoundTrip reads it back |
| JavaText.FileName | docker-extension/src/main/java/org/ballerinax/docker/DockerArtifactHandler.java:198 | `String.valueOf(Paths.get(p).getFileName())` for a Unix path: the text after the last '/'; for a path ending in '/' or a root-only path the model gives "" where Java gives the last element or "null" (see "## Left out") |
| JavaText.FileNameIsLastElement | docker-extension/src/main/java/org/ballerinax/docker/DockerArtifactHandler.java:198 | the source file name holds no '/', is the suffix of the path after its last '/', and is empty only for an empty path or one ending in '/' |
| JavaText.FileNameOfJoin | docker-extension/src/main/java/org/ballerinax/docker/DockerArtifactHandler.java:198 | a path "dir/name" with no '/' in name has file name exactly name |
| DockerfileText.Dockerfile | docker-extension/src/main/java/org/ballerinax/docker/DockerArtifactHandler.java:187-223 | the whole generated text: header, one COPY line per file, the EXPOSE line for a service with ports, and the run line; the specification Generate is proved against |
| DockerfileText.DockerArtifactHandler.constructor | docker-extension/src/main/java/org/ballerinax/docker/DockerArtifactHandler.java:52-57 | the handler keeps the model it is given |
| DockerfileText.DockerArtifactHandler.Generate | docker-extension/src/main/java/org/ballerinax/docker/DockerArtifactHandler.java:187-223 | the generated text is exactly Dockerfile of the handler's model; the model is a constant the method cannot change |
| DockerfileText.AppendCopyLines | docker-extension/src/main/java/org/ballerinax/docker/DockerArtifactHandler.java:196-204 | the first loop over the files appends exactly one COPY line per file, in order |
| DockerfileText.AppendExpose | docker-extension/src/main/java/org/ballerinax/docker/DockerArtifactHandler.java:205-211 | the EXPOSE clause is appended only for a service with ports, and the run command follows in both branches |
| DockerfileText.AppendPorts | docker-extension/src/main/java/org/ballerinax/docker/DockerArtifactHandler.java:207 | the loop over the ports appends a space and the decimal port for each port, in order |
| DockerfileText.AppendConfigFlags | docker-extension/src/main/java/org/ballerinax/docker/DockerArtifactHandler.java:212-216 | the second loop over the files appends a --config flag for config files only, in order |
| DockerfileText.AppendRunArguments | docker-extension/src/main/java/org/ballerinax/docker/DockerArtifactHandler.java:212-222 | after the config flags come the debug flag when enabled, a space, the artifact name and a newline |
| DockerfileText.GenerateTwice | docker-extension/src/main/java/org/ballerinax/docker/DockerArtifactHandler.java:187-223 | two generations from one handler give identical text |
| DockerfileText.DockerfileBeginsWithHeader | docker-extension/src/main/java/org/ballerinax/docker/DockerArtifactHandler.java:188-195 | the text starts with the header comment, FROM the base image, the maintainer LABEL and the COPY of the artifact to /home/ballerina |
| DockerfileText.DockerfileCopyLineAt | docker-extension/src/main/java/org/ballerinax/docker/DockerArtifactHandler.java:196-204 | right after the header, the i-th file's COPY line (last element of the source, then the target) stands at its offset and the next line starts where it ends |
| DockerfileText.DockerfileExposeIff | docker-extension/src/main/java/org/ballerinax/docker/DockerArtifactHandler.java:205-211 | the text after the COPY lines starts with "EXPOSE " if and only if the model is a service with ports; then it is EXPOSE, the port list, a blank line and the run command, otherwise the run command directly |
| DockerfileText.PortListRoundTrip | docker-extension/src/main/java/org/ballerinax/docker/DockerArtifactHandler.java:205-208 | the EXPOSE list reads back to exactly the ports: each port once, in order, each after a single space |
| DockerfileText.ConfigFiles | docker-extension/src/main/java/org/ballerinax/docker/DockerArtifactHandler.java:212-216 | the entries that yield --config flags are exactly the config files of the model, each as many times as it occurs in the files and no other entry |
| DockerfileText.ConfigFilesAppend | docker-extension/src/main/java/org/ballerinax/docker/DockerArtifactHandler.java:212-216 | the filter keeps file order: the config files of a join are those of the first part followed by those of the second |
| DockerfileText.ConfigArgsAreConfigFlags | docker-extension/src/main/java/org/ballerinax/docker/DockerArtifactHandler.java:212-216 | the run line holds one " --config target" per config file in file order and nothing for other files |
| DockerfileText.DockerfileEndsWithRunLine | docker-extension/src/main/java/org/ballerinax/docker/DockerArtifactHandler.java:208-222 | the text ends with the run command, the config flags, " --debug port" exactly when debugging is enabled, a space, the artifact name and a newline |
| DockerErrors.DockerError.constructor | docker-extension/src/main/java/org/ballerinax/docker/DockerArtifactHandler.java:232-234 | a new record is clear: no error and no message |
| DockerErrors.FailurePrefix | docker-extension/src/main/java/org/ballerinax/docker/DockerArtifactHandler.java:103 | the message prefix of each listener: "Unable to build Docker image: " (lines 103, 109) and "Unable to push Docker image: " (lines 160, 166) |
| DockerErrors.StringOf | docker-extension/src/main/java/org/ballerinax/docker/DockerArtifactHandler.java:103 | Java's string concatenation of a possibly null string (the onError message, `t.getMessage()`): null renders as "null" |
| DockerErrors.Step | docker-extension/src/main/java/org/ballerinax/docker/DockerArtifactHandler.java:96-116 | the effect of one callback on the record: an error callback sets the flag and stores the prefix plus its message, any other callback leaves the record as it was, and a record whose flag agrees with its message keeps that agreement |
| DockerErrors.DockerError.IsError | docker-extension/src/main/java/org/ballerinax/docker/DockerArtifactHandler.java:236-238 | the error flag; for a valid record it is set exactly when a message is held |
| DockerErrors.DockerError.GetErrorMsg | docker-extension/src/main/java/org/ballerinax/docker/DockerArtifactHandler.java:240-242 | the stored message; for a valid record it is present exactly when the flag is set |
| DockerErrors.DockerError.SetErrorMsg | docker-extension/src/main/java/org/ballerinax/docker/DockerArtifactHandler.java:244-247 | after setting, the record reports an error and holds exactly that message |
| DockerErrors.Listen | docker-extension/src/main/java/org/ballerinax/docker/DockerArtifactHandler.java:95-172 | onSuccess and onEvent leave the record unchanged; onError(String) and onError(Throwable) store the operation's prefix plus the message, a null message (either kind) rendering as "null" |
| DockerErrors.HandleError | docker-extension/src/main/java/org/ballerinax/docker/DockerArtifactHandler.java:125-129 | raises if and only if the error flag is set, and then with exactly the stored message |
| DockerErrors.FirstTerminal | docker-extension/src/main/java/org/ballerinax/docker/DockerArtifactHandler.java:48-49 | the wait ends at the first terminal callback: no callback before it is terminal |
| DockerErrors.AwaitOperation | docker-extension/src/main/java/org/ballerinax/docker/DockerArtifactHandler.java:82-180 | a build or push returns normally exactly when its first terminal callback is onSuccess, and otherwise raises "Unable to build/push Docker image: " plus the engine's message |
| DockerErrors.QuietCallbacksKeepRecord | docker-extension/src/main/java/org/ballerinax/docker/DockerArtifactHandler.java:96-116 | a run of onSuccess and onEvent callbacks leaves the record as it was |
| DockerErrors.LastErrorWins | docker-extension/src/main/java/org/ballerinax/docker/DockerArtifactHandler.java:244-247 | after several callbacks the record holds the message of the last error callback |

## Left out

- The `CountDownLatch` gates, their `await` and `countDown`, and all threading: the
  callbacks are modelled as a sequence delivered before the wait returns. The push
  listener counts down before it stores the error (lines 159-160 and 165-166), so in the
  source the check can race with the write; the model assumes the write is seen.
- The latches are fields of the handler created once, so a second build or push on one
  handler would not wait; the model gives every operation a fresh gate.
- AwaitOperation: requires that some callback is terminal, because without one the
  source waits forever, which the model cannot express.
- The fabric8 `DockerClient` calls (connecting, building, pushing, closing the output
  handle and the client), registry resolution with `RegistryUtils.extractRegistry` and
  `AuthConfigBuilder`: foreign library code and network I/O.
- `disableFailOnUnknownProperties` (reflection into the client library) and the
  `docker.cert.path` system property set by the constructor: process-wide configuration
  plumbing.
- `printDebug` in `onEvent`: logging only; `onEvent` is a no-op on the record.
- FileName: models `Paths.get(p).getFileName()` only for non-empty Unix paths that do not
  end in '/'. For an empty path or a trailing '/' the model gives the empty name, while
  Java normalises the path: `etc/conf/` gives `conf`, and a root-only path has no name,
  which `String.valueOf` renders as "null". Windows separators are not modelled.
- FileNameIsLastElement: states the model's behaviour above for a path ending in '/'
  (an empty name), not Java's normalised last element.
- FileNameOfJoin: for an empty `name` it gives `FileName(dir + "/") == ""`, where Java
  gives the last element of `dir`.
- Descriptor strings: the base image, the artifact name and the file targets are taken
  as non-null strings; Java would append "null" for a null one. The engine's messages
  to the listener are modelled as possibly null.
- IntToString: Java's `int` is 32 bits wide; the model renders unbounded integers, which
  agrees on every value an `int` can hold.
- Dockerfile text is a sequence of characters; its encoding when written to disk is not
  modelled.
