/** Shared result types and the exceptions the program can raise. */
module Base {

  datatype Option<+T> = None | Some(value: T)

  /** A call that either returns a value or raises one of the exceptions below. */
  datatype Result<+T> = Success(value: T) | Failure(error: Error)

  /** The exceptions that end a call early. */
  datatype Error =
    | CalledProcessError(args: seq<string>, returncode: int)  // a `check=True` subprocess exited non-zero
    | FileNotFound(name: string)                                // a file that must exist does not
    | KeyError(key: string)                                     // a required record key is missing
    | TypeMismatch(key: string)                                 // a record entry has the wrong JSON type
    | NotRelative                                               // `Path.relative_to` raised ValueError
    | UncommittedChanges                                        // the RuntimeError raised on a dirty tree
    | ManifestUnreadable(name: string)                          // cookiecutter.json missing or not JSON
    | ManifestNotAnObject                                       // cookiecutter.json holds no JSON object
    | RenderFailed(templateDir: seq<string>)                    // cookiecutter raised while rendering
    | PromptInterrupted                                         // the user aborted the interactive prompt
}
