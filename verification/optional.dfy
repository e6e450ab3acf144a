/** The optional value used for JavaScript's `undefined`/`null`: an unset
    setting, a missing workspace folder list, a null exit code. */
module Optional {

  datatype Option<+T> = None | Some(value: T)
}
