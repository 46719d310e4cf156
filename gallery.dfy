/**
  The gallery: a grid of eight tiles and a modal viewer. The only state is which image
  the modal shows, if any; previous and next wrap around the ends of the list.
 */
module GalleryComponent {
  import opened Wrappers

  /** `galleryItems` lists eight pieces. */
  const ItemCount: nat := 8

  datatype Direction = Prev | Next

  /** One step of `navigateImage` over `n` images, wrapping at both ends. */
  function Step(i: nat, d: Direction, n: nat): (j: nat)
    requires i < n
    ensures j < n
    ensures d == Next ==> j == (i + 1) % n
    ensures d == Prev ==> j == (i - 1) % n
  {
    match d
    case Prev =>
      if i == 0 then DivModUnique(-1, n, -1, n - 1); n - 1
      else DivModUnique(i - 1, n, 0, i - 1); i - 1
    case Next =>
      if i == n - 1 then DivModUnique(n, n, 1, 0); 0
      else DivModUnique(i + 1, n, 0, i + 1); i + 1
  }

  /** Next undoes previous and previous undoes next. */
  lemma StepInverse(i: nat, n: nat)
    requires i < n
    ensures Step(Step(i, Next, n), Prev, n) == i
    ensures Step(Step(i, Prev, n), Next, n) == i
  {
  }

  /** `k` presses of the same arrow. */
  function Steps(i: nat, d: Direction, k: nat, n: nat): (j: nat)
    requires i < n
    ensures j < n
  {
    if k == 0 then i else Step(Steps(i, d, k - 1, n), d, n)
  }

  /** Euclidean division is unique: a remainder in range fixes the quotient. */
  lemma DivModUnique(a: int, n: nat, q: int, r: int)
    requires 0 <= r < n && a == q * n + r
    ensures a % n == r
  {
    var q', r' := a / n, a % n;
    var d := q - q';
    assert d * n == q * n - q' * n;
    assert d * n == r' - r;
  }

  /** The remainder after one more, or one fewer, step. */
  lemma ModShift(a: int, n: nat)
    requires n > 0
    ensures (a % n + 1) % n == (a + 1) % n
    ensures (a % n - 1) % n == (a - 1) % n
  {
    var q, r := a / n, a % n;
    if r + 1 < n {
      DivModUnique(r + 1, n, 0, r + 1);
      DivModUnique(a + 1, n, q, r + 1);
    } else {
      DivModUnique(r + 1, n, 1, 0);
      assert a + 1 == (q + 1) * n + 0;
      DivModUnique(a + 1, n, q + 1, 0);
    }
    if r >= 1 {
      DivModUnique(r - 1, n, 0, r - 1);
      DivModUnique(a - 1, n, q, r - 1);
    } else {
      DivModUnique(r - 1, n, -1, n - 1);
      assert a - 1 == (q - 1) * n + (n - 1);
      DivModUnique(a - 1, n, q - 1, n - 1);
    }
  }

  /** Moving `k` times to the next image is adding `k` modulo `n`; moving back is subtracting. */
  lemma {:induction false} StepsModular(i: nat, d: Direction, k: nat, n: nat)
    requires i < n
    ensures d == Next ==> Steps(i, d, k, n) == (i + k) % n
    ensures d == Prev ==> Steps(i, d, k, n) == (i - k) % n
  {
    if k > 0 {
      StepsModular(i, d, k - 1, n);
      ModShift(i + (k - 1), n);
      ModShift(i - (k - 1), n);
    }
  }

  /** Pressing the same arrow once per image comes back to the starting image. */
  lemma FullCycle(i: nat, d: Direction, n: nat)
    requires i < n
    ensures Steps(i, d, n, n) == i
  {
    StepsModular(i, d, n, n);
    DivModUnique(i + n, n, 1, i);
    DivModUnique(i - n, n, -1, i);
  }

  class Gallery {
    /** The index of the image the modal shows; `None` while the modal is closed. */
    var selectedImage: Option<nat>

    /** An open modal always shows one of the gallery's images. */
    ghost predicate Valid()
      reads this
    {
      selectedImage.Some? ==> selectedImage.value < ItemCount
    }

    constructor ()
      ensures Valid() && selectedImage == None
    {
      selectedImage := None;
    }

    /** A tile was clicked: show its image. */
    method OpenModal(index: nat)
      requires Valid() && index < ItemCount
      modifies this
      ensures Valid() && selectedImage == Some(index)
    {
      selectedImage := Some(index);
    }

    method CloseModal()
      requires Valid()
      modifies this
      ensures Valid() && selectedImage == None
    {
      selectedImage := None;
    }

    /** Show the previous or next image; nothing happens while the modal is closed. */
    method NavigateImage(direction: Direction)
      requires Valid()
      modifies this
      ensures Valid()
      ensures old(selectedImage).None? ==> selectedImage == None
      ensures old(selectedImage).Some? ==>
        selectedImage == Some(Step(old(selectedImage).value, direction, ItemCount))
    {
      if selectedImage.None? {
        return;
      }
      var current := selectedImage.value;
      if direction == Prev {
        selectedImage := Some(if current == 0 then ItemCount - 1 else current - 1);
      } else {
        selectedImage := Some(if current == ItemCount - 1 then 0 else current + 1);
      }
    }

    /** A key pressed in the modal: Escape closes it, the arrow keys move through the images,
        any other key changes nothing. */
    method HandleKeyDown(key: string)
      requires Valid()
      modifies this
      ensures Valid()
      ensures key == "Escape" ==> selectedImage == None
      ensures key == "ArrowLeft" ==>
        selectedImage == (if old(selectedImage).None? then None else Some(Step(old(selectedImage).value, Prev, ItemCount)))
      ensures key == "ArrowRight" ==>
        selectedImage == (if old(selectedImage).None? then None else Some(Step(old(selectedImage).value, Next, ItemCount)))
      ensures key !in {"Escape", "ArrowLeft", "ArrowRight"} ==> selectedImage == old(selectedImage)
    {
      if key == "Escape" {
        CloseModal();
      }
      if key == "ArrowLeft" {
        NavigateImage(Prev);
      }
      if key == "ArrowRight" {
        NavigateImage(Next);
      }
    }

    /** A key pressed on a focused tile: Enter or Space opens it. */
    method HandleTileKeyDown(index: nat, key: string)
      requires Valid() && index < ItemCount
      modifies this
      ensures Valid()
      ensures key == "Enter" || key == " " ==> selectedImage == Some(index)
      ensures key != "Enter" && key != " " ==> selectedImage == old(selectedImage)
    {
      if key == "Enter" || key == " " {
        OpenModal(index);
      }
    }

    /** The modal's "n of 8" counter: the shown position counts from one. */
    function Counter(): (shown: nat)
      reads this
      requires Valid() && selectedImage.Some?
      ensures 1 <= shown <= ItemCount
      ensures shown - 1 == selectedImage.value
    {
      selectedImage.value + 1
    }
  }
}
