/** The key names the input layer keeps in its list of held keys; `update` only asks
    whether one of them is in the list. */
module Keys {
  datatype Key = ArrowLeft | ArrowRight | ArrowUp | ArrowDown | Space
}
