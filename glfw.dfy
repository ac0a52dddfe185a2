/**
  The key and action codes of the GLFW window library that the viewer's
  keyboard handler compares against (their values as GLFW defines them).
*/
module Glfw {
  const ActionRelease := 0
  const ActionPress := 1
  const ActionRepeat := 2

  const KeySpace := 32
  const KeyMinus := 45
  const Key1 := 49
  const Key2 := 50
  const Key3 := 51
  const Key4 := 52
  const Key5 := 53
  const Key6 := 54
  const Key7 := 55
  const Key8 := 56
  const Key9 := 57
  const KeyEqual := 61
  const KeyA := 65
  const KeyC := 67
  const KeyD := 68
  const KeyG := 71
  const KeyM := 77
  const KeyP := 80
  const KeyR := 82
  const KeyS := 83
  const KeyT := 84
  const KeyW := 87
  const KeyEscape := 256
  const KeyRight := 262
  const KeyLeft := 263
  const KeyDown := 264
  const KeyUp := 265
  const KeyKpSubtract := 333
  const KeyKpAdd := 334
}
