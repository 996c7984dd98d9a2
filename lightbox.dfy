/**
  The image lightbox of the page script: a modal whose class list carries the
  `active` marker, the enlarged image's source, and the page body's `overflow`
  style, which is `hidden` while the modal is open.
 */
module Lightbox {

  const ActiveClass: string := "active"

  /** The three ways the user can dismiss an open lightbox. */
  datatype Dismissal = BackdropClick | EnlargedImageClick | EscapeKey

  class Controller {
    var modalClasses: set<string>
    var imageSrc: string
    var bodyOverflow: string

    predicate IsActive()
      reads this
    {
      ActiveClass in modalClasses
    }

    /** The elements as the page loads them. */
    constructor (classes: set<string>, src: string, overflow: string)
      ensures modalClasses == classes && imageSrc == src && bodyOverflow == overflow
    {
      modalClasses := classes;
      imageSrc := src;
      bodyOverflow := overflow;
    }

    /** Shows `src` enlarged, marks the modal active and stops the page from scrolling;
        the modal's other classes are kept. */
    method OpenLightbox(src: string)
      modifies this
      ensures IsActive()
      ensures imageSrc == src && modalClasses == old(modalClasses) + {ActiveClass}
      ensures bodyOverflow == "hidden"
    {
      imageSrc := src;
      modalClasses := modalClasses + {ActiveClass};
      bodyOverflow := "hidden";
    }

    /** Hides the modal and clears the body's overflow style; the image stays as it was.
        Closing twice is closing once. */
    method CloseLightbox()
      modifies this`modalClasses, this`bodyOverflow
      ensures !IsActive()
      ensures modalClasses == old(modalClasses) - {ActiveClass} && bodyOverflow == ""
      ensures !old(IsActive()) && old(bodyOverflow) == "" ==> unchanged(this)
    {
      assert !IsActive() ==> modalClasses - {ActiveClass} == modalClasses;
      modalClasses := modalClasses - {ActiveClass};
      bodyOverflow := "";
    }

    /** A click on a gallery thumbnail whose source is `src`. */
    method OnThumbnailClick(src: string)
      modifies this
      ensures IsActive()
      ensures imageSrc == src && modalClasses == old(modalClasses) + {ActiveClass}
      ensures bodyOverflow == "hidden"
    {
      OpenLightbox(src);
    }

    /** A click delivered to the backdrop's handler; it closes the lightbox only when
        the backdrop itself is the click target. */
    method OnOverlayClick(targetIsOverlay: bool)
      modifies this`modalClasses, this`bodyOverflow
      ensures targetIsOverlay ==> modalClasses == old(modalClasses) - {ActiveClass} && bodyOverflow == ""
      ensures !targetIsOverlay ==> unchanged(this)
    {
      if targetIsOverlay {
        CloseLightbox();
      }
    }

    /** A click on the enlarged image closes the lightbox. */
    method OnImageClick()
      modifies this`modalClasses, this`bodyOverflow
      ensures modalClasses == old(modalClasses) - {ActiveClass} && bodyOverflow == ""
    {
      CloseLightbox();
    }

    /** A key press: Escape closes an active lightbox; anything else changes nothing. */
    method OnKeyDown(key: string)
      modifies this`modalClasses, this`bodyOverflow
      ensures key == "Escape" && old(IsActive()) ==> modalClasses == old(modalClasses) - {ActiveClass} && bodyOverflow == ""
      ensures !(key == "Escape" && old(IsActive())) ==> unchanged(this)
    {
      if key == "Escape" && IsActive() {
        CloseLightbox();
      }
    }
  }

  /** Opening the lightbox on `src` and dismissing it by any of the three paths ends in
      the same state: closed, background scrolling restored, the modal's other
      classes and the shown image kept; it stays so when it is closed again and
      when Escape is pressed again. */
  method DismissalScenario(classes: set<string>, initialSrc: string, src: string, path: Dismissal)
    returns (active: bool, shownSrc: string, overflow: string, finalClasses: set<string>)
    ensures !active && shownSrc == src && overflow == ""
    ensures finalClasses == classes - {ActiveClass}
  {
    var lightbox := new Controller(classes, initialSrc, "");
    lightbox.OnThumbnailClick(src);
    match path {
      case BackdropClick =>
        lightbox.OnOverlayClick(true);
      case EnlargedImageClick =>
        lightbox.OnImageClick();
      case EscapeKey =>
        lightbox.OnKeyDown("Escape");
    }
    lightbox.CloseLightbox();
    lightbox.OnKeyDown("Escape");
    active, shownSrc := lightbox.IsActive(), lightbox.imageSrc;
    overflow, finalClasses := lightbox.bodyOverflow, lightbox.modalClasses;
  }
}
