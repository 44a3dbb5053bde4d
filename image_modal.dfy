/** The lightbox (`ImageModal`): the index it is shown lives with its owner,
    and the modal only computes the index to navigate to. */
module ImageModal {
  import opened Js

  /** `goToPrevious`'s new index: one back, wrapping from the first image to the last. */
  function Previous(currentIndex: int, count: int): int {
    if currentIndex == 0 then count - 1 else currentIndex - 1
  }

  /** `goToNext`'s new index: one on, wrapping from the last image to the first. */
  function Next(currentIndex: int, count: int): int {
    if currentIndex == count - 1 then 0 else currentIndex + 1
  }

  /** On a valid index both moves are a step around a circle of `count` images. */
  lemma {:induction false} StepsAreModular(currentIndex: int, count: int)
    requires 0 <= currentIndex < count
    ensures Next(currentIndex, count) == (currentIndex + 1) % count
    ensures Previous(currentIndex, count) == (currentIndex - 1 + count) % count
  {
    if currentIndex == count - 1 {
      assert (currentIndex + 1) % count == count % count == 0;
    } else {
      assert (currentIndex + 1) % count == currentIndex + 1;
    }
    if currentIndex == 0 {
      assert (count - 1) % count == count - 1;
    } else {
      assert (currentIndex - 1 + count) % count == currentIndex - 1;
    }
  }

  /** Both moves keep a valid index valid. */
  lemma StepsStayInRange(currentIndex: int, count: int)
    requires 0 <= currentIndex < count
    ensures 0 <= Next(currentIndex, count) < count
    ensures 0 <= Previous(currentIndex, count) < count
  {
  }

  /** On a valid index each move undoes the other. */
  lemma StepsAreInverse(currentIndex: int, count: int)
    requires 0 <= currentIndex < count
    ensures Previous(Next(currentIndex, count), count) == currentIndex
    ensures Next(Previous(currentIndex, count), count) == currentIndex
  {
  }

  /** What a key press asks of the owner. */
  datatype KeyAction = Close | Navigate(newIndex: int) | Ignore

  /** The key handler: Escape always closes; the arrow keys move only when
      there is more than one image; every other key does nothing. */
  function KeyPress(key: string, currentIndex: int, count: int): (a: KeyAction)
    ensures key == "Escape" <==> a == Close
    ensures a.Navigate? <==> (key == "ArrowLeft" || key == "ArrowRight") && count > 1
    ensures a.Navigate? && key == "ArrowLeft" ==> a.newIndex == Previous(currentIndex, count)
    ensures a.Navigate? && key == "ArrowRight" ==> a.newIndex == Next(currentIndex, count)
  {
    if key == "Escape" then Close
    else if key == "ArrowLeft" && count > 1 then Navigate(Previous(currentIndex, count))
    else if key == "ArrowRight" && count > 1 then Navigate(Next(currentIndex, count))
    else Ignore
  }

  /** The footer hint under the image. */
  datatype Hint = ArrowsAndEscape | EscapeOrClickOutside

  /** What an open modal shows: the image when the index names one, the
      arrows and the "i of n" counter with more than one image, and a hint. */
  datatype Shown = Shown(image: bool, arrows: bool, counter: Option<(int, int)>, hint: Hint)

  /** The rendering: nothing when closed. */
  function Render(isOpen: bool, currentIndex: int, count: nat): (r: Option<Shown>)
    ensures r.None? <==> !isOpen
    ensures r.Some? ==> (r.value.image <==> 0 <= currentIndex < count)
    ensures r.Some? ==> (r.value.arrows <==> count > 1)
    ensures r.Some? ==> (r.value.counter.Some? <==> count > 1)
    ensures r.Some? && r.value.counter.Some? ==> r.value.counter.value == (currentIndex + 1, count)
    ensures r.Some? ==> (r.value.hint == ArrowsAndEscape <==> count > 1)
  {
    if !isOpen then None
    else
      var multiple := count > 1;
      Some(Shown(0 <= currentIndex < count, multiple,
                 if multiple then Some((currentIndex + 1, count)) else None,
                 if multiple then ArrowsAndEscape else EscapeOrClickOutside))
  }

  /** A key press never moves a valid index out of range. */
  lemma KeyPressKeepsIndex(key: string, currentIndex: int, count: int)
    requires 0 <= currentIndex < count
    ensures KeyPress(key, currentIndex, count).Navigate? ==>
              0 <= KeyPress(key, currentIndex, count).newIndex < count
  {
    StepsStayInRange(currentIndex, count);
  }
}
