/** Client-side navigation requested by a page: `router.push(path)`, possibly from a timer. */
module Navigation {

  /** A `router.push(path)` made `delayMs` milliseconds after the event (0 for at once). */
  datatype Redirect = Redirect(path: string, delayMs: nat)

  const Home := "/"
  const LoginPath := "/auth/login"
}
