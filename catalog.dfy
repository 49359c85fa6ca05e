/**
 * The fixed sample catalog that the store loads at construction
 * (server/storage.ts, `initializeProducts`). It is a fixture, not a rule.
 */
module Catalog {
  import opened Schema

  /** The catalog loaded when the store is created. */
  function SampleProducts(): (r: seq<InsertProduct>)
    ensures |r| == 5
  {
    [ InsertProduct("Яблоки Голден", "Сладкие и сочные яблоки", "99.99", "fruits",
                    "https://images.unsplash.com/photo-1610444833641-0542660a4ed7", 100),
      InsertProduct("Бананы", "Спелые бананы из Эквадора", "89.99", "fruits",
                    "https://images.unsplash.com/photo-1498579397066-22750a3cb424", 150),
      InsertProduct("Помидоры", "Свежие томаты", "199.99", "vegetables",
                    "https://images.unsplash.com/photo-1557844352-761f2565b576", 80),
      InsertProduct("Огурцы", "Хрустящие огурцы", "149.99", "vegetables",
                    "https://images.unsplash.com/photo-1610348725531-843dff563e2c", 90),
      InsertProduct("Курага", "Сушеный абрикос", "399.99", "dried",
                    "https://images.unsplash.com/photo-1595412017587-b7f3117dff54", 50) ]
  }

}
