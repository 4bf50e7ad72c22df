/** How a task's `run` ends. */
module Tasks {
  /**
    `run` returns False (a missing argument), returns normally, ends the process with
    `exit()`, or lets an exception out.
   */
  datatype Ending = ReturnedFalse | Finished | Exited | Raising
}
