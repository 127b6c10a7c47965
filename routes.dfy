/** Screen route names, used as opaque identifiers, and a navigation request
    `openAndPopUp(route, popUp)`: open `route` and remove `popUp` from the back stack. */
module Routes {
  const HOME_SCREEN := "HomeScreen"
  const LOGIN_SCREEN := "LoginScreen"
  const SIGNUP_SCREEN := "SignUpScreen"

  datatype Navigation = Navigation(route: string, popUp: string)
}
