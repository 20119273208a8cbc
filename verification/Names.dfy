/** The status and type words that the agent, its child processes and the blade tool share. */
module Names {
  const CREATED := "Created"
  const SUCCESS := "Success"
  const ERROR := "Error"
  const DESTROYED := "Destroyed"

  const CPU := "cpu"
  const MEM := "mem"
  const SCRIPT := "script"
}
