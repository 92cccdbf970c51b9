/** The robot's turn state, shared by the page and the voice button. */
module Robot {

  datatype RobotState = Idle | Listening | Thinking | Speaking
}
