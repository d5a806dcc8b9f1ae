/** How an external write ends. */
module Effects {

  /** Done; not done; or done although the caller is told it failed. */
  datatype Outcome = Done | Failed | Unsure
}
