/** The nullable references of the C# source ("string?", "FtpServerConfig?") as an Option. */
module Wrappers {

  datatype Option<+T> = None | Some(value: T)
}
