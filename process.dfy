/** What a child process gives back to the application. The processes
    themselves (sudo, systemctl, ryzenadj, clevo-fancontrol) are outside
    the model; their outcome is an input to every operation that uses it. */
module Process {

  /** `Raised`: starting or talking to the process raised an exception
      (binary missing, undecodable output, ...).
      `Exited`: the process ran; `code` is its exit status and `stdout`
      its decoded standard output. */
  datatype Run = Raised | Exited(code: int, stdout: string)
}
