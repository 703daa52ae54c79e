/** What the screens hand to their collaborators: the content of an
    `Alert.alert` notice and the screen a button's action navigates to. */
module Notices {

  datatype Option<+T> = None | Some(value: T)

  /** The named screens the app's handlers navigate to. */
  datatype Screen = Home | AddDish | Payment

  /** An alert button: its label and the screen its `onPress` navigates to. */
  datatype Button = Button(text: string, onPress: Screen)

  /** `Alert.alert(title, message?, buttons?)`; no buttons means the platform's own dismiss button. */
  datatype Alert = Alert(title: string, message: Option<string>, buttons: seq<Button>)

  /** `Alert.alert(title)` with neither message nor buttons. */
  function TitleOnly(title: string): Alert {
    Alert(title, None, [])
  }
}
