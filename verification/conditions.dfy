/** What the cpu and the kernel tell each other about a process. */
module DispatchConditions {

  /** Why the cpu returned a process. */
  datatype Condition = NullCondition | ExitProgram | InterruptedByKernel | IoSyscall
}
